/**
 Submission ids make sends idempotent: the service remembers the results of the last sends, and a send
 with a remembered id gets its stored result. Sends of one thread hold that thread's lock from the
 lookup until the result is remembered; sends of different threads interleave.
 */
module Submissions {
  import opened Wrappers

  const SUBMISSION_DEDUPE_LIMIT: nat := 1024

  /** Thread and submission ids. */
  type Id = nat

  /** The result of a send; the body is the rest of the response. */
  datatype Response = Response(thread: Id, submission: Id, body: nat)

  datatype Memory = Memory(results: map<Id, Response>, order: seq<Id>)

  /** The order lists exactly the remembered ids, once each, and not too many. */
  ghost predicate Sound(m: Memory) {
    && (forall id :: id in m.results <==> id in m.order)
    && (forall i, j :: 0 <= i < j < |m.order| ==> m.order[i] != m.order[j])
    && |m.order| <= SUBMISSION_DEDUPE_LIMIT
    && (forall id :: id in m.results ==> m.results[id].submission == id)
  }

  /** A known id keeps its place; a new one comes last, and the oldest makes room for it. */
  function Remember(m: Memory, r: Response): Memory {
    var results := m.results[r.submission := r];
    if r.submission in m.results then Memory(results, m.order)
    else if |m.order| < SUBMISSION_DEDUPE_LIMIT then Memory(results, m.order + [r.submission])
    else Memory(results - {m.order[0]}, m.order[1..] + [r.submission])
  }

  /** Remembering keeps the memory sound, and what it forgets is the oldest id, and only for a new one. */
  lemma RememberSound(m: Memory, r: Response)
    requires Sound(m)
    ensures Sound(Remember(m, r))
    ensures r.submission in Remember(m, r).results && Remember(m, r).results[r.submission] == r
    ensures forall id :: id in m.results && id != r.submission ==>
                           (id in Remember(m, r).results && Remember(m, r).results[id] == m.results[id])
                           || (|m.order| == SUBMISSION_DEDUPE_LIMIT && id == m.order[0] && r.submission !in m.results)
  {
    if r.submission !in m.results {
      var dropped := if |m.order| < SUBMISSION_DEDUPE_LIMIT then 0 else 1;
      QueueShift(m.order, dropped, r.submission);
    }
  }

  /** Dropping the front of a duplicate-free queue and appending a new id. */
  lemma QueueShift(order: seq<Id>, dropped: nat, id: Id)
    requires dropped <= 1 && dropped <= |order| && id !in order
    requires forall i, j :: 0 <= i < j < |order| ==> order[i] != order[j]
    ensures var shifted := order[dropped..] + [id];
            && (forall i, j :: 0 <= i < j < |shifted| ==> shifted[i] != shifted[j])
            && (forall x :: x in shifted <==> x == id || (x in order && (dropped == 1 ==> x != order[0])))
  {
    var shifted := order[dropped..] + [id];
    assert shifted[|shifted| - 1] == id;
    forall x | x in order && (dropped == 1 ==> x != order[0]) ensures x in shifted {
      var i :| 0 <= i < |order| && order[i] == x;
      assert shifted[i - dropped] == x;
    }
  }

  class SubmissionMemory {
    var results: map<Id, Response>
    var order: seq<Id>

    function State(): Memory
      reads this
    {
      Memory(results, order)
    }

    constructor ()
      ensures State() == Memory(map[], []) && Sound(State())
    {
      results, order := map[], [];
    }

    /** `remember_submission_result`. */
    method RememberSubmissionResult(result: Response)
      requires Sound(State())
      modifies this
      ensures State() == Remember(old(State()), result) && Sound(State())
    {
      RememberSound(State(), result);
      ghost var before := State();
      var known := result.submission in results;
      results := results[result.submission := result];
      if !known {
        order := order + [result.submission];
      }
      ghost var grown := State();
      while |order| > SUBMISSION_DEDUPE_LIMIT
        invariant if |grown.order| > SUBMISSION_DEDUPE_LIMIT && State() != grown
                  then order == grown.order[1..] && results == grown.results - {grown.order[0]}
                  else State() == grown
        decreases |order|
      {
        var oldest := order[0];
        order := order[1..];
        if oldest in results {
          results := results - {oldest};
        }
      }
      assert |before.order| >= SUBMISSION_DEDUPE_LIMIT && !known ==>
        grown.order[1..] == before.order[1..] + [result.submission];
    }
  }

  // ---- sends of many threads ----

  /** Where the send that holds a thread's lock stands: past the lookup, or taken by the queue or the agent. */
  datatype Sender = Free | Admitted(submission: Id) | Taken(submission: Id)

  /** A message was enqueued or handed to the agent for this submission. */
  datatype Take = Take(thread: Id, submission: Id)

  datatype Service = Service(memory: Memory, senders: map<Id, Sender>, takes: seq<Take>)

  const NEW_SERVICE: Service := Service(Memory(map[], []), map[], [])

  datatype Step =
    | Send(thread: Id, submission: Id)
    | TakeMessage(thread: Id)
    | Finish(thread: Id, body: nat)
    | Fail(thread: Id)

  datatype Answer = Stored(response: Response) | OtherThread | Proceeds

  function SenderOf(s: Service, thread: Id): Sender {
    if thread in s.senders then s.senders[thread] else Free
  }

  /** What the lookup of a send answers. */
  function Lookup(s: Service, thread: Id, submission: Id): Answer {
    if submission !in s.memory.results then Proceeds
    else if s.memory.results[submission].thread != thread then OtherThread
    else Stored(s.memory.results[submission])
  }

  function Apply(s: Service, step: Step): Service {
    match step
    case Send(thread, submission) =>
      if SenderOf(s, thread).Free? && Lookup(s, thread, submission).Proceeds?
      then s.(senders := s.senders[thread := Admitted(submission)]) else s
    case TakeMessage(thread) =>
      if !SenderOf(s, thread).Admitted? then s
      else
        var submission := SenderOf(s, thread).submission;
        s.(senders := s.senders[thread := Taken(submission)], takes := s.takes + [Take(thread, submission)])
    case Finish(thread, body) =>
      if !SenderOf(s, thread).Taken? then s
      else
        s.(memory := Remember(s.memory, Response(thread, SenderOf(s, thread).submission, body)),
           senders := s.senders[thread := Free])
    case Fail(thread) => if SenderOf(s, thread).Free? then s else s.(senders := s.senders[thread := Free])
  }

  function RunFrom(s: Service, steps: seq<Step>): Service
    decreases |steps|
  {
    if steps == [] then s else Apply(RunFrom(s, steps[..|steps| - 1]), steps[|steps| - 1])
  }

  function Run(steps: seq<Step>): Service {
    RunFrom(NEW_SERVICE, steps)
  }

  lemma {:induction false} RunSound(steps: seq<Step>)
    ensures Sound(Run(steps).memory)
    decreases |steps|
  {
    if steps != [] {
      var before, last := Run(steps[..|steps| - 1]), steps[|steps| - 1];
      RunSound(steps[..|steps| - 1]);
      if last.Finish? && SenderOf(before, last.thread).Taken? {
        RememberSound(before.memory, Response(last.thread, SenderOf(before, last.thread).submission, last.body));
      }
    }
  }

  /** A free thread whose submission is remembered, or a thread busy with another submission. */
  predicate NotSending(s: Service, thread: Id, submission: Id) {
    SenderOf(s, thread).Free? || SenderOf(s, thread).submission != submission
  }

  function Takes(takes: seq<Take>, t: Take): nat {
    multiset(takes)[t]
  }

  lemma StepTakesNothing(s: Service, step: Step, thread: Id, submission: Id)
    requires NotSending(s, thread, submission) && submission in s.memory.results
    ensures NotSending(Apply(s, step), thread, submission)
    ensures Takes(Apply(s, step).takes, Take(thread, submission)) == Takes(s.takes, Take(thread, submission))
  {
  }

  /** While a submission id stays remembered, its thread never takes it a second time. */
  lemma {:induction false} NeverTakenAgain(s: Service, more: seq<Step>, thread: Id, submission: Id)
    requires NotSending(s, thread, submission)
    requires forall n :: 0 <= n <= |more| ==> submission in RunFrom(s, more[..n]).memory.results
    ensures NotSending(RunFrom(s, more), thread, submission)
    ensures Takes(RunFrom(s, more).takes, Take(thread, submission)) == Takes(s.takes, Take(thread, submission))
    decreases |more|
  {
    if more != [] {
      hide Apply, NotSending, SenderOf, Takes;
      var before := more[..|more| - 1];
      forall n | 0 <= n <= |before| ensures submission in RunFrom(s, before[..n]).memory.results {
        assert before[..n] == more[..n];
      }
      NeverTakenAgain(s, before, thread, submission);
      assert more[..|before|] == before;
      StepTakesNothing(RunFrom(s, before), more[|before|], thread, submission);
    }
  }

  /** A send that finishes leaves its id remembered and its thread free, so the lemma above applies from there. */
  lemma FinishRemembers(s: Service, thread: Id, body: nat)
    requires Sound(s.memory) && SenderOf(s, thread).Taken?
    ensures var s', submission := Apply(s, Finish(thread, body)), SenderOf(s, thread).submission;
            && submission in s'.memory.results && NotSending(s', thread, submission)
            && Lookup(s', thread, submission) == Stored(Response(thread, submission, body))
            && forall other :: other != thread ==> Lookup(s', other, submission) == OtherThread
  {
    RememberSound(s.memory, Response(thread, SenderOf(s, thread).submission, body));
  }

  /** Over any run: at the moment a thread takes a submission, no result of its own is remembered for it. */
  ghost predicate OwnResultsAbsent(s: Service) {
    forall thread :: thread in s.senders && !s.senders[thread].Free? ==>
      !Lookup(s, thread, s.senders[thread].submission).Stored?
  }

  lemma StepOwnResults(s: Service, step: Step)
    requires Sound(s.memory) && OwnResultsAbsent(s)
    ensures OwnResultsAbsent(Apply(s, step))
  {
    if step.Finish? && SenderOf(s, step.thread).Taken? {
      RememberSound(s.memory, Response(step.thread, SenderOf(s, step.thread).submission, step.body));
    }
  }

  lemma {:induction false} TakesOnlyUnknown(steps: seq<Step>)
    ensures OwnResultsAbsent(Run(steps))
    decreases |steps|
  {
    if steps != [] {
      hide Apply, OwnResultsAbsent, Sound;
      TakesOnlyUnknown(steps[..|steps| - 1]);
      RunSound(steps[..|steps| - 1]);
      StepOwnResults(Run(steps[..|steps| - 1]), steps[|steps| - 1]);
    } else {
      assert OwnResultsAbsent(NEW_SERVICE);
    }
  }

  // ---- across threads ----

  /** The service before step `n` of a run. */
  ghost function At(steps: seq<Step>, n: nat): Service
    requires n <= |steps|
  {
    Run(steps[..n])
  }

  lemma AtNext(steps: seq<Step>, n: nat)
    requires n < |steps|
    ensures At(steps, n + 1) == Apply(At(steps, n), steps[n])
  {
    assert steps[..n + 1][..n] == steps[..n];
  }

  lemma AtSound(steps: seq<Step>, n: nat)
    requires n <= |steps|
    ensures Sound(At(steps, n).memory)
  {
    RunSound(steps[..n]);
  }

  /** Once the id is remembered it stays so. */
  ghost predicate NeverEvicted(steps: seq<Step>, id: Id) {
    forall i, j :: 0 <= i <= j <= |steps| && id in At(steps, i).memory.results ==> id in At(steps, j).memory.results
  }

  /** Step `n` is a send of `thread` that the lookup lets through. */
  ghost predicate Passes(steps: seq<Step>, n: nat, thread: Id, id: Id) {
    && n < |steps| && steps[n] == Send(thread, id)
    && SenderOf(At(steps, n), thread).Free? && id !in At(steps, n).memory.results
  }

  /** The send of `thread` is past its lookup from before step `from`, and step `k` takes its message. */
  ghost predicate Reaches(steps: seq<Step>, from: nat, k: nat, thread: Id, id: Id) {
    && from <= k < |steps| && steps[k] == TakeMessage(thread)
    && forall j :: from <= j <= k ==> SenderOf(At(steps, j), thread) == Admitted(id)
  }

  /** Before step `n` a send of `thread` ended with an error after its message was taken; no result is remembered. */
  ghost predicate FailedTake(steps: seq<Step>, n: nat, thread: Id, id: Id)
    requires n <= |steps|
  {
    exists k | 0 <= k < n :: steps[k] == Fail(thread) && SenderOf(At(steps, k), thread) == Taken(id)
  }

  /**
   The lookup of `thread` passes although a send of `other` holds the id: its message is taken, or it is past
   its own lookup and will be taken, or it was taken by a send that failed.
   */
  ghost predicate PassesBeside(steps: seq<Step>, n: nat, k: nat, thread: Id, other: Id, id: Id) {
    && Passes(steps, n, thread, id)
    && Reaches(steps, n + 1, k, thread, id)
    && (|| SenderOf(At(steps, n), other) == Taken(id)
        || (exists l :: Reaches(steps, n, l, other, id))
        || FailedTake(steps, n, other, id))
  }

  ghost predicate Overlaps(steps: seq<Step>, thread: Id, other: Id, id: Id) {
    exists n, k :: PassesBeside(steps, n, k, thread, other, id)
  }

  /** A take has its step, and the send behind it passed the lookup before. */
  lemma {:induction false} TakeHasStep(steps: seq<Step>, n: nat, take: Take) returns (k: nat)
    requires n <= |steps| && take in At(steps, n).takes
    ensures k < n && steps[k] == TakeMessage(take.thread)
    ensures SenderOf(At(steps, k), take.thread) == Admitted(take.submission)
  {
    assert At(steps, 0) == NEW_SERVICE;
    if 0 < n {
      AtNext(steps, n - 1);
      if take in At(steps, n - 1).takes {
        k := TakeHasStep(steps, n - 1, take);
      } else {
        k := n - 1;
      }
    }
  }

  lemma {:induction false} AdmittedPassed(steps: seq<Step>, k: nat, thread: Id, id: Id) returns (n: nat)
    requires k <= |steps| && SenderOf(At(steps, k), thread) == Admitted(id)
    ensures n < k && Passes(steps, n, thread, id)
    ensures forall j :: n < j <= k ==> SenderOf(At(steps, j), thread) == Admitted(id)
  {
    assert At(steps, 0) == NEW_SERVICE;
    if 0 < k {
      AtNext(steps, k - 1);
      if SenderOf(At(steps, k - 1), thread) == Admitted(id) {
        n := AdmittedPassed(steps, k - 1, thread, id);
      } else {
        n := k - 1;
      }
    }
  }

  /** A take passed its lookup and reached its step. */
  lemma TakeReached(steps: seq<Step>, take: Take) returns (n: nat, k: nat)
    requires take in Run(steps).takes
    ensures Passes(steps, n, take.thread, take.submission)
    ensures Reaches(steps, n + 1, k, take.thread, take.submission)
  {
    assert steps[..|steps|] == steps;
    k := TakeHasStep(steps, |steps|, take);
    n := AdmittedPassed(steps, k, take.thread, take.submission);
  }

  lemma StepFromTaken(s: Service, step: Step, thread: Id, id: Id)
    requires Sound(s.memory) && SenderOf(s, thread) == Taken(id)
    ensures || SenderOf(Apply(s, step), thread) == Taken(id)
            || step == Fail(thread)
            || id in Apply(s, step).memory.results
  {
    if step.Finish? && step.thread == thread {
      RememberSound(s.memory, Response(thread, id, step.body));
    }
  }

  /** A taken message is still held by its send, or that send failed, or its result is remembered. */
  ghost predicate Accounted(steps: seq<Step>, n: nat, thread: Id, id: Id)
    requires n <= |steps|
  {
    || SenderOf(At(steps, n), thread) == Taken(id)
    || FailedTake(steps, n, thread, id)
    || id in At(steps, n).memory.results
  }

  lemma StepAccounted(steps: seq<Step>, n: nat, thread: Id, id: Id)
    requires NeverEvicted(steps, id) && n < |steps| && Accounted(steps, n, thread, id)
    ensures Accounted(steps, n + 1, thread, id)
  {
    hide Apply, Sound, At, SenderOf;
    if id in At(steps, n).memory.results {
      assert id in At(steps, n + 1).memory.results;
    } else if SenderOf(At(steps, n), thread) == Taken(id) {
      hide NeverEvicted;
      AtSound(steps, n);
      AtNext(steps, n);
      StepFromTaken(At(steps, n), steps[n], thread, id);
    }
  }

  lemma {:induction false} AfterTake(steps: seq<Step>, k: nat, n: nat, thread: Id, id: Id)
    requires NeverEvicted(steps, id) && k <= n <= |steps| && SenderOf(At(steps, k), thread) == Taken(id)
    ensures Accounted(steps, n, thread, id)
    decreases n
  {
    if k < n {
      hide NeverEvicted, Accounted, At;
      AfterTake(steps, k, n - 1, thread, id);
      StepAccounted(steps, n - 1, thread, id);
    }
  }

  lemma TakenAfterReach(steps: seq<Step>, from: nat, k: nat, thread: Id, id: Id)
    requires Reaches(steps, from, k, thread, id)
    ensures SenderOf(At(steps, k + 1), thread) == Taken(id)
    ensures Take(thread, id) in At(steps, k + 1).takes
  {
    AtNext(steps, k);
    assert SenderOf(At(steps, k), thread) == Admitted(id);
    var takes := At(steps, k).takes + [Take(thread, id)];
    assert takes[|takes| - 1] == Take(thread, id);
  }

  /** Of two sends that take the same id, the one that looks up later passes beside the other. */
  lemma LaterPassesBeside(steps: seq<Step>, n: nat, k: nat, thread: Id, m: nat, l: nat, other: Id, id: Id)
    requires NeverEvicted(steps, id) && m < n
    requires Passes(steps, n, thread, id) && Reaches(steps, n + 1, k, thread, id)
    requires Passes(steps, m, other, id) && Reaches(steps, m + 1, l, other, id)
    ensures PassesBeside(steps, n, k, thread, other, id)
  {
    hide At, NeverEvicted, SenderOf;
    if n <= l {
      assert Reaches(steps, n, l, other, id);
    } else {
      TakenAfterReach(steps, m + 1, l, other, id);
      AfterTake(steps, l + 1, n, other, id);
    }
  }

  lemma {:induction false} TakesStay(steps: seq<Step>, k: nat, n: nat, take: Take)
    requires k <= n <= |steps| && take in At(steps, k).takes
    ensures take in At(steps, n).takes
    decreases n
  {
    if k < n {
      TakesStay(steps, k, n - 1, take);
      AtNext(steps, n - 1);
    }
  }

  lemma ReachedTakes(steps: seq<Step>, from: nat, k: nat, thread: Id, id: Id)
    requires Reaches(steps, from, k, thread, id)
    ensures Take(thread, id) in Run(steps).takes
  {
    TakenAfterReach(steps, from, k, thread, id);
    TakesStay(steps, k + 1, |steps|, Take(thread, id));
    assert steps[..|steps|] == steps;
  }

  lemma {:induction false} TakenWasTaken(steps: seq<Step>, n: nat, thread: Id, id: Id)
    requires n <= |steps| && SenderOf(At(steps, n), thread) == Taken(id)
    ensures Take(thread, id) in At(steps, n).takes
  {
    assert At(steps, 0) == NEW_SERVICE;
    if 0 < n {
      AtNext(steps, n - 1);
      if SenderOf(At(steps, n - 1), thread) == Taken(id) {
        TakenWasTaken(steps, n - 1, thread, id);
      } else {
        var takes := At(steps, n - 1).takes + [Take(thread, id)];
        assert takes[|takes| - 1] == Take(thread, id);
      }
    }
  }

  lemma TakenStaysTaken(steps: seq<Step>, n: nat, thread: Id, id: Id)
    requires n <= |steps| && SenderOf(At(steps, n), thread) == Taken(id)
    ensures Take(thread, id) in Run(steps).takes
  {
    TakenWasTaken(steps, n, thread, id);
    TakesStay(steps, n, |steps|, Take(thread, id));
    assert steps[..|steps|] == steps;
  }

  lemma OverlapTakesTwice(steps: seq<Step>, thread: Id, other: Id, id: Id)
    requires Overlaps(steps, thread, other, id)
    ensures Take(thread, id) in Run(steps).takes && Take(other, id) in Run(steps).takes
  {
    hide At, Run, SenderOf, Reaches;
    var n: nat, k: nat :| PassesBeside(steps, n, k, thread, other, id);
    ReachedTakes(steps, n + 1, k, thread, id);
    if SenderOf(At(steps, n), other) == Taken(id) {
      TakenStaysTaken(steps, n, other, id);
    } else if FailedTake(steps, n, other, id) {
      var j :| 0 <= j < n && steps[j] == Fail(other) && SenderOf(At(steps, j), other) == Taken(id);
      TakenStaysTaken(steps, j, other, id);
    } else {
      var l: nat :| Reaches(steps, n, l, other, id);
      ReachedTakes(steps, n, l, other, id);
    }
  }

  /**
   Two threads take one submission exactly when the lookup of one of them passes while the other holds the id
   without a remembered result: in any run in which the id is not evicted.
   */
  lemma TwoThreadsTakeIff(steps: seq<Step>, thread: Id, other: Id, id: Id)
    requires thread != other && NeverEvicted(steps, id)
    ensures (Take(thread, id) in Run(steps).takes && Take(other, id) in Run(steps).takes)
            <==> (Overlaps(steps, thread, other, id) || Overlaps(steps, other, thread, id))
  {
    hide NeverEvicted, Run, Reaches, PassesBeside;
    if Take(thread, id) in Run(steps).takes && Take(other, id) in Run(steps).takes {
      var n, k := TakeReached(steps, Take(thread, id));
      var m, l := TakeReached(steps, Take(other, id));
      if m < n {
        LaterPassesBeside(steps, n, k, thread, m, l, other, id);
      } else {
        LaterPassesBeside(steps, m, l, other, n, k, thread, id);
      }
    }
    if Overlaps(steps, thread, other, id) {
      OverlapTakesTwice(steps, thread, other, id);
    }
    if Overlaps(steps, other, thread, id) {
      OverlapTakesTwice(steps, other, thread, id);
    }
  }

  const RACE: seq<Step> := [Send(1, 9), Send(2, 9), TakeMessage(1), TakeMessage(2)]

  /** Two threads that look the same id up before either remembers it both take it. */
  lemma TwoThreadsTakeOneSubmission()
    ensures Take(1, 9) in Run(RACE).takes && Take(2, 9) in Run(RACE).takes
  {
    assert At(RACE, 0) == NEW_SERVICE;
    AtNext(RACE, 0);
    assert At(RACE, 1).senders == map[1 := Admitted(9)];
    AtNext(RACE, 1);
    assert At(RACE, 2).senders == map[1 := Admitted(9), 2 := Admitted(9)];
    AtNext(RACE, 2);
    assert At(RACE, 3).takes == [Take(1, 9)] && SenderOf(At(RACE, 3), 2) == Admitted(9);
    AtNext(RACE, 3);
    assert At(RACE, 4).takes == [Take(1, 9), Take(2, 9)];
    assert RACE[..4] == RACE;
  }

  const FAILED_SEND: seq<Step> := [Send(1, 9), TakeMessage(1), Fail(1), Send(2, 9), TakeMessage(2)]

  /** A send that fails after it handed its message over is not remembered, so its id is free for any thread. */
  lemma FailedSendIsTakenAgain()
    ensures Take(1, 9) in Run(FAILED_SEND).takes && Take(2, 9) in Run(FAILED_SEND).takes
    ensures SenderOf(At(FAILED_SEND, 3), 1).Free? && Passes(FAILED_SEND, 3, 2, 9)
  {
    assert At(FAILED_SEND, 0) == NEW_SERVICE;
    AtNext(FAILED_SEND, 0);
    assert At(FAILED_SEND, 1).senders == map[1 := Admitted(9)];
    AtNext(FAILED_SEND, 1);
    assert At(FAILED_SEND, 2).senders == map[1 := Taken(9)] && At(FAILED_SEND, 2).takes == [Take(1, 9)];
    AtNext(FAILED_SEND, 2);
    assert SenderOf(At(FAILED_SEND, 3), 1) == Free && SenderOf(At(FAILED_SEND, 3), 2) == Free;
    AtNext(FAILED_SEND, 3);
    assert SenderOf(At(FAILED_SEND, 4), 2) == Admitted(9) && At(FAILED_SEND, 4).takes == [Take(1, 9)];
    AtNext(FAILED_SEND, 4);
    assert At(FAILED_SEND, 5).takes == [Take(1, 9), Take(2, 9)];
    assert FAILED_SEND[..5] == FAILED_SEND;
  }

  // ---- how long an id stays remembered ----

  /** The last 1,024. */
  function Recent(ids: seq<Id>): seq<Id> {
    if |ids| <= SUBMISSION_DEDUPE_LIMIT then ids else ids[|ids| - SUBMISSION_DEDUPE_LIMIT..]
  }

  /** The step finishes a send of this id. */
  predicate Finishes(s: Service, step: Step, id: Id) {
    step.Finish? && SenderOf(s, step.thread) == Taken(id)
  }

  /** The ids in the order in which sends of them finished, each that was not among the last 1,024 before. */
  function NewIds(steps: seq<Step>): seq<Id> {
    if steps == [] then []
    else
      var before, last := steps[..|steps| - 1], steps[|steps| - 1];
      var ids, sender := NewIds(before), if last.Finish? then SenderOf(Run(before), last.thread) else Free;
      if sender.Taken? && sender.submission !in Recent(ids) then ids + [sender.submission] else ids
  }

  lemma RememberShifts(m: Memory, r: Response, ids: seq<Id>)
    requires Sound(m) && m.order == Recent(ids)
    ensures Remember(m, r).order == Recent(if r.submission in Recent(ids) then ids else ids + [r.submission])
  {
    var n, limit, more := |ids|, SUBMISSION_DEDUPE_LIMIT, ids + [r.submission];
    if r.submission !in m.order && n >= limit {
      assert Recent(more) == more[n + 1 - limit..];
      assert m.order == ids[n - limit..];
      assert ids[n - limit..][1..] == ids[n + 1 - limit..];
    }
  }

  /** What is remembered are the last 1,024 new ids, in the order in which they came. */
  lemma {:induction false} OrderIsRecent(steps: seq<Step>)
    ensures Run(steps).memory.order == Recent(NewIds(steps))
    decreases |steps|
  {
    if steps != [] {
      var before, last := steps[..|steps| - 1], steps[|steps| - 1];
      OrderIsRecent(before);
      RunSound(before);
      hide Recent, Sound;
      if last.Finish? && SenderOf(Run(before), last.thread).Taken? {
        var id := SenderOf(Run(before), last.thread).submission;
        RememberShifts(Run(before).memory, Response(last.thread, id, last.body), NewIds(before));
      }
    }
  }

  lemma RememberedIffRecent(steps: seq<Step>, id: Id)
    ensures id in Run(steps).memory.results <==> id in Recent(NewIds(steps))
  {
    OrderIsRecent(steps);
    RunSound(steps);
    hide Run, NewIds, Recent;
  }

  /** The ids that became new before step `n`. */
  ghost function NewAt(steps: seq<Step>, n: nat): seq<Id>
    requires n <= |steps|
  {
    NewIds(steps[..n])
  }

  /** Step `n` finishes a send of an id that was not remembered. */
  ghost predicate BecomesNew(steps: seq<Step>, n: nat, id: Id)
    requires n < |steps|
  {
    Finishes(At(steps, n), steps[n], id) && id !in Recent(NewAt(steps, n))
  }

  lemma NewAtNext(steps: seq<Step>, n: nat)
    requires n < |steps|
    ensures NewAt(steps, n) <= NewAt(steps, n + 1)
    ensures forall id :: BecomesNew(steps, n, id) ==> NewAt(steps, n + 1) == NewAt(steps, n) + [id]
    ensures (forall id :: !BecomesNew(steps, n, id)) ==> NewAt(steps, n + 1) == NewAt(steps, n)
  {
    assert steps[..n + 1][..n] == steps[..n];
    hide Recent, Run;
    var sender := if steps[n].Finish? then SenderOf(At(steps, n), steps[n].thread) else Free;
    if sender.Taken? && sender.submission !in Recent(NewAt(steps, n)) {
      assert BecomesNew(steps, n, sender.submission);
    }
  }

  lemma {:induction false} NewAtGrows(steps: seq<Step>, n: nat, m: nat, id: Id)
    requires n <= m <= |steps|
    requires forall k :: n <= k < m ==> !BecomesNew(steps, k, id)
    ensures NewAt(steps, n) <= NewAt(steps, m)
    ensures forall i :: |NewAt(steps, n)| <= i < |NewAt(steps, m)| ==> NewAt(steps, m)[i] != id
    decreases m
  {
    if n < m {
      hide BecomesNew, NewAt;
      NewAtGrows(steps, n, m - 1, id);
      var last := m - 1;
      NewAtNext(steps, last);
      assert !BecomesNew(steps, last, id);
    }
  }

  /** An id is remembered exactly until 1,024 ids that were new have finished, counting from the send that made it new. */
  lemma RememberedUntil(steps: seq<Step>, n: nat, m: nat, id: Id)
    requires n < m <= |steps| && BecomesNew(steps, n, id)
    requires forall k :: n < k < m ==> !BecomesNew(steps, k, id)
    ensures id in At(steps, m).memory.results <==> |NewAt(steps, m)| - |NewAt(steps, n)| <= SUBMISSION_DEDUPE_LIMIT
  {
    NewAtNext(steps, n);
    NewAtGrows(steps, n + 1, m, id);
    RememberedIffRecent(steps[..m], id);
    NotBefore(steps, n, id);
    hide NewIds, BecomesNew, Run;
    var ids, before, limit := NewAt(steps, m), NewAt(steps, n), SUBMISSION_DEDUPE_LIMIT;
    assert ids[|before|] == (before + [id])[|before|] == id;
    if |ids| - |before| <= limit {
      assert |ids| > limit ==> Recent(ids)[|before| - (|ids| - limit)] == id;
    } else {
      assert forall i :: 0 <= i < limit ==> Recent(ids)[i] == ids[|ids| - limit + i];
    }
  }

  lemma NotBefore(steps: seq<Step>, n: nat, id: Id)
    requires n < |steps| && BecomesNew(steps, n, id)
    ensures id !in Recent(NewAt(steps, n))
  {
  }

  lemma RememberedIsNotNew(steps: seq<Step>, n: nat, id: Id)
    requires n < |steps| && id in At(steps, n).memory.results
    ensures !BecomesNew(steps, n, id)
  {
    RememberedIffRecent(steps[..n], id);
  }

  /** So it stays remembered for as long as no more than 1,024 ids have become new, itself included. */
  lemma {:induction false} StaysRemembered(steps: seq<Step>, n: nat, m: nat, id: Id)
    requires n < m <= |steps| && BecomesNew(steps, n, id)
    requires |NewAt(steps, m)| - |NewAt(steps, n)| <= SUBMISSION_DEDUPE_LIMIT
    ensures forall k :: n < k <= m ==> id in At(steps, k).memory.results
    decreases m
  {
    hide BecomesNew, NewAt, At;
    if n + 1 < m {
      var last := m - 1;
      NewAtNext(steps, last);
      StaysRemembered(steps, n, last, id);
      forall k | n < k < m ensures !BecomesNew(steps, k, id) {
        RememberedIsNotNew(steps, k, id);
      }
    }
    RememberedUntil(steps, n, m, id);
  }

  lemma {:induction false} RunFromAt(steps: seq<Step>, n: nat, m: nat)
    requires n <= m <= |steps|
    ensures RunFrom(At(steps, n), steps[n..m]) == At(steps, m)
    decreases m
  {
    if n < m {
      RunFromAt(steps, n, m - 1);
      AtNext(steps, m - 1);
      assert steps[n..m][..m - n - 1] == steps[n..m - 1];
      hide Apply, At;
    }
  }

  /**
   A thread that finished a send of a new id takes it no second time until 1,024 other ids have become new,
   whatever is sent meanwhile by whomever.
   */
  lemma FinishedOnce(steps: seq<Step>, n: nat, m: nat, thread: Id, id: Id)
    requires n < m <= |steps| && BecomesNew(steps, n, id) && steps[n].thread == thread
    requires |NewAt(steps, m)| - |NewAt(steps, n)| <= SUBMISSION_DEDUPE_LIMIT
    ensures Takes(At(steps, m).takes, Take(thread, id)) == Takes(At(steps, n).takes, Take(thread, id))
    ensures Lookup(At(steps, n + 1), thread, id) == Stored(Response(thread, id, steps[n].body))
  {
    hide NewAt, NotSending, Lookup, At, BecomesNew, Takes, SenderOf, RunFrom;
    StaysRemembered(steps, n, m, id);
    FinishFrees(steps, n, thread, id);
    RunFromAt(steps, n + 1, m);
    var more := steps[n + 1..m];
    forall k | 0 <= k <= |more| ensures id in RunFrom(At(steps, n + 1), more[..k]).memory.results {
      RunFromAt(steps, n + 1, n + 1 + k);
      assert more[..k] == steps[n + 1..n + 1 + k];
    }
    NeverTakenAgain(At(steps, n + 1), more, thread, id);
  }

  lemma FinishFrees(steps: seq<Step>, n: nat, thread: Id, id: Id)
    requires n < |steps| && BecomesNew(steps, n, id) && steps[n].thread == thread
    ensures NotSending(At(steps, n + 1), thread, id)
    ensures At(steps, n + 1).takes == At(steps, n).takes
    ensures Lookup(At(steps, n + 1), thread, id) == Stored(Response(thread, id, steps[n].body))
  {
    AtNext(steps, n);
    AtSound(steps, n);
    FinishRemembers(At(steps, n), thread, steps[n].body);
    hide NewAt, Remember, NotSending, Lookup, Sound, At;
  }
}
