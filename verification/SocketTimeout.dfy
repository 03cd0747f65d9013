/**
  The per-operation watchdog of src/Socket.c: a timer's DPC and the
  operation's completion routine share one context through a count of two,
  and whichever drops the last frees it.
*/
module SocketTimeout {

  datatype Timer = Armed | Fired | Cancelled

  datatype Dpc = Idle | Marking | Cancelling | Dropping | Gone

  datatype Completion = Pending | Disarming | ReadingFlag | Calling | Releasing | Done

  datatype State = State(
    timer: Timer, dpc: Dpc, completion: Completion,
    refCount: int, timedOut: bool, cancelled: bool,   // cancelled: the IRP completed with STATUS_CANCELLED
    // history
    frees: nat, calls: nat, reportedTimeout: bool, asked: bool)   // asked: IoCancelIrp was called

  function Init(): State {
    State(Armed, Idle, Pending, 2, false, false, 0, 0, false, false)
  }

  datatype Action = Fire | Mark | CancelIrp | DropDpc | Complete(cancelled: bool) | Disarm | ReadFlag | Call | Release

  predicate Enabled(s: State, a: Action) {
    match a
    case Fire => s.timer == Armed
    case Mark => s.dpc == Marking
    case CancelIrp => s.dpc == Cancelling
    case DropDpc => s.dpc == Dropping
    case Complete(_) => s.completion == Pending
    case Disarm => s.completion == Disarming
    case ReadFlag => s.completion == ReadingFlag
    case Call => s.completion == Calling
    case Release => s.completion == Releasing
  }

  /** Drops one reference; the one that reaches zero frees. */
  function Drop(s: State): State {
    s.(refCount := s.refCount - 1, frees := s.frees + (if s.refCount == 1 then 1 else 0))
  }

  function Apply(s: State, a: Action): State
    requires Enabled(s, a)
  {
    match a
    case Fire => s.(timer := Fired, dpc := Marking)
    case Mark => s.(timedOut := true, dpc := Cancelling)
    case CancelIrp => s.(dpc := Dropping, asked := true)
    case DropDpc => Drop(s).(dpc := Gone)
    case Complete(cancelled) => s.(completion := Disarming, cancelled := cancelled)
    case Disarm =>
      if s.timer == Armed then s.(timer := Cancelled, refCount := s.refCount - 1, completion := ReadingFlag)
      else s.(completion := ReadingFlag)
    case ReadFlag => s.(completion := Calling, reportedTimeout := s.timedOut && s.cancelled)
    case Call => s.(completion := Releasing, calls := s.calls + 1)
    case Release => Drop(s).(completion := Done)
  }

  /** The DPC has run, or never will. */
  predicate DpcOver(s: State) {
    s.timer == Cancelled || s.dpc == Gone
  }

  ghost predicate Inv(s: State) {
    && (s.timer == Fired <==> s.dpc != Idle)
    && s.refCount == (if s.completion == Done then 0 else 1) + (if DpcOver(s) then 0 else 1)
    && s.frees == (if s.refCount == 0 then 1 else 0)
    && s.calls == (if s.completion == Releasing || s.completion == Done then 1 else 0)
    && (s.timer == Cancelled ==> s.completion != Pending && s.completion != Disarming)
    && (s.completion != Pending && s.completion != Disarming ==> s.timer != Armed)
    && (s.reportedTimeout ==> s.timedOut && s.cancelled && (s.completion == Calling || s.completion == Releasing || s.completion == Done))
    && (s.timedOut <==> s.dpc == Cancelling || s.dpc == Dropping || s.dpc == Gone)
    && (s.asked <==> s.dpc == Dropping || s.dpc == Gone)
  }

  lemma StepKeepsInv(s: State, a: Action)
    requires Inv(s) && Enabled(s, a)
    ensures Inv(Apply(s, a))
  {
  }

  ghost predicate Legal(s: State, acts: seq<Action>)
    decreases |acts|
  {
    acts == [] || (Enabled(s, acts[0]) && Legal(Apply(s, acts[0]), acts[1..]))
  }

  function After(s: State, acts: seq<Action>): State
    requires Legal(s, acts)
    decreases |acts|
  {
    if acts == [] then s else After(Apply(s, acts[0]), acts[1..])
  }

  lemma {:induction false} RunKeepsInv(s: State, acts: seq<Action>)
    requires Inv(s) && Legal(s, acts)
    ensures Inv(After(s, acts))
    decreases |acts|
  {
    if acts != [] {
      StepKeepsInv(s, acts[0]);
      RunKeepsInv(Apply(s, acts[0]), acts[1..]);
    }
  }

  /**
    However the timer and the completion race, no step of either touches a
    freed context, the caller is called back at most once, a timeout is
    reported only for an operation the watchdog had marked and that ended
    cancelled, and once nothing is left to happen the context has been freed
    once, the caller called, and the operation asked to cancel if the timer
    went off.
  */
  lemma WatchdogRuns(acts: seq<Action>)
    requires Legal(Init(), acts)
    ensures var s := After(Init(), acts);
            && s.frees <= 1 && s.calls <= 1
            && (forall a: Action | Enabled(s, a) && a != Fire && !a.Complete? :: s.frees == 0)
            && (s.timer == Armed || s.completion == Pending ==> s.frees == 0)
            && (s.reportedTimeout ==> s.timedOut && s.cancelled)
            && ((forall a: Action :: !Enabled(s, a)) ==> s.frees == 1 && s.calls == 1 && (s.timer == Fired ==> s.timedOut && s.asked))
  {
    RunKeepsInv(Init(), acts);
    var s := After(Init(), acts);
    if forall a: Action :: !Enabled(s, a) {
      assert !Enabled(s, Fire) && !Enabled(s, Mark) && !Enabled(s, CancelIrp) && !Enabled(s, DropDpc) && !Enabled(s, Complete(true));
      assert !Enabled(s, Disarm) && !Enabled(s, ReadFlag) && !Enabled(s, Call) && !Enabled(s, Release);
    }
  }

  /** What the caller is told, by the actions alone: a timeout, if the mark came before the completion read it and the operation ended cancelled. */
  predicate Reported(acts: seq<Action>) {
    acts != [] &&
    var before, last := acts[..|acts| - 1], acts[|acts| - 1];
    if last == ReadFlag then Mark in before && Complete(true) in before else Reported(before)
  }

  lemma {:induction false} AfterSnoc(s: State, acts: seq<Action>)
    requires Legal(s, acts) && acts != []
    ensures var before, last := acts[..|acts| - 1], acts[|acts| - 1];
            Legal(s, before) && Enabled(After(s, before), last) && After(s, acts) == Apply(After(s, before), last)
    decreases |acts|
  {
    if |acts| > 1 {
      AfterSnoc(Apply(s, acts[0]), acts[1..]);
      assert acts[..|acts| - 1][1..] == acts[1..][..|acts| - 2] && acts[..|acts| - 1][0] == acts[0];
    }
  }

  /** However they fall, a timeout is reported exactly then. */
  lemma {:induction false} ReportsExactly(acts: seq<Action>)
    requires Legal(Init(), acts)
    ensures After(Init(), acts).reportedTimeout <==> Reported(acts)
    ensures After(Init(), acts).timedOut <==> Mark in acts
    ensures After(Init(), acts).cancelled <==> Complete(true) in acts
    ensures After(Init(), acts).completion == Pending <==> Complete(true) !in acts && Complete(false) !in acts
  {
    if acts != [] {
      var before, last := acts[..|acts| - 1], acts[|acts| - 1];
      AfterSnoc(Init(), acts);
      ReportsExactly(before);
      RunKeepsInv(Init(), before);
      assert acts == before + [last];
    }
  }
}
