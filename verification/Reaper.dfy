/**
 Who frees a loop's native state: the thread that deallocates the loop object, or the
 thread that finishes resolver work the loop could not cancel.
 */
module Reaper {
  /** The values of the ownership cell. */
  const SYNCHRONOUS := 0
  const REAPING := 1
  const ORPHANED := 2
  const REAPED := 3

  datatype MainPc =
    | Closing                // the handles are gone; try to close the libuv loop
    | ReleasingFutures | Publishing | Spawning | Unpublishing
    | DrainingHere | ClosingHere
    | Using(uses: nat)       // the object outlives its close for so many accesses
    | Loading | Acting(seen: nat)
    | Finished

  datatype ReaperPc = Absent | Running | ClosingLoop | Swapping | Freeing(current: nat) | Ended

  datatype System = System(
    cell: nat, main: MainPc, reaper: ReaperPc,
    lookups: nat, others: nat,     // libuv requests still outstanding: resolver lookups, and any other
    uses: nat,                     // accesses between close and deallocation
    closes: nat, frees: nat, retries: nat,
    touchedAfterFree: bool, panicked: bool)

  datatype Choice = Main(spawns: bool) | Reaper

  ghost function Start(lookups: nat, others: nat, uses: nat): System {
    System(SYNCHRONOUS, Closing, Absent, lookups, others, uses, 0, 0, 0, false, false)
  }

  /** The state block is about to be accessed. */
  ghost function Touch(s: System): System {
    s.(touchedAfterFree := s.touchedAfterFree || s.frees > 0)
  }

  ghost function Free(s: System): System {
    Touch(s).(frees := s.frees + 1)
  }

  ghost function CloseLoop(s: System): System {
    if s.lookups + s.others > 0 then s.(panicked := true) else s.(closes := s.closes + 1)
  }

  ghost function CompleteOne(s: System): System
    requires s.lookups + s.others > 0
  {
    if s.lookups > 0 then s.(lookups := s.lookups - 1) else s.(others := s.others - 1)
  }

  /** One step of `closeAllHandles`, `startDnsReaper` or `releaseStateFromLoopObject`. */
  ghost function MainStep(s: System, spawns: bool): System {
    var t := Touch(s);
    match s.main
    case Closing =>
      if s.lookups + s.others == 0 then t.(closes := s.closes + 1, main := Using(s.uses))
      else if s.lookups > 0 then t.(main := ReleasingFutures)
      else t.(main := DrainingHere)
    case ReleasingFutures => t.(main := Publishing)
    case Publishing => t.(cell := REAPING, main := Spawning)
    case Spawning =>
      if spawns then s.(reaper := Running, main := Using(s.uses)) else s.(main := Unpublishing)
    case Unpublishing => t.(cell := SYNCHRONOUS, main := DrainingHere)
    case DrainingHere =>
      if s.lookups + s.others > 0 then CompleteOne(t) else t.(main := ClosingHere)
    case ClosingHere => CloseLoop(t).(main := Using(s.uses))
    case Using(n) => if n > 0 then t.(main := Using(n - 1)) else s.(main := Loading)
    case Loading => t.(main := Acting(s.cell))
    case Acting(seen) =>
      if seen == SYNCHRONOUS || seen == REAPED then Free(s).(main := Finished)
      else if seen == REAPING then
        if s.cell == REAPING then t.(cell := ORPHANED, main := Finished)
        else t.(retries := s.retries + 1, main := Loading)
      else s.(panicked := true, main := Finished)
    case Finished => s
  }

  /** One step of `reapLoop`. */
  ghost function ReaperStep(s: System): System {
    var t := Touch(s);
    match s.reaper
    case Running =>
      if s.lookups + s.others > 0 then CompleteOne(t) else t.(reaper := ClosingLoop)
    case ClosingLoop => CloseLoop(t).(reaper := Swapping)
    case Swapping =>
      if s.cell == REAPING then t.(cell := REAPED, reaper := Ended) else t.(reaper := Freeing(s.cell))
    case Freeing(current) =>
      if current != ORPHANED then s.(panicked := true, reaper := Ended) else Free(s).(reaper := Ended)
    case _ => s
  }

  ghost predicate Enabled(s: System, choice: Choice) {
    match choice
    case Main(_) => !s.main.Finished?
    case Reaper => !s.reaper.Absent? && !s.reaper.Ended?
  }

  ghost function Next(s: System, choice: Choice): System {
    match choice
    case Main(spawns) => MainStep(s, spawns)
    case Reaper => ReaperStep(s)
  }

  ghost predicate Quiescent(s: System) {
    s.main.Finished? && (s.reaper.Absent? || s.reaper.Ended?)
  }

  /** `run` is an interleaving that starts in `s` and whose steps are all enabled. */
  ghost predicate Interleaving(s: System, run: seq<Choice>)
    decreases |run|
  {
    run == [] || (Enabled(s, run[0]) && Interleaving(Next(s, run[0]), run[1..]))
  }

  ghost function After(s: System, run: seq<Choice>): System
    decreases |run|
  {
    if run == [] then s else After(Next(s, run[0]), run[1..])
  }

  // ----- the invariant

  /** The cell tells how far the reaper is, as long as the loop object still exists. */
  ghost predicate CellTells(s: System) {
    match s.reaper
    case Absent => s.cell == SYNCHRONOUS && s.closes == 1
    case Ended => s.cell == REAPED && s.closes == 1
    case Running => s.cell == REAPING && s.closes == 0
    case ClosingLoop => s.cell == REAPING && s.closes == 0 && s.lookups + s.others == 0
    case Swapping => s.cell == REAPING && s.closes == 1
    case Freeing(_) => false
  }

  ghost predicate Ownership(s: System) {
    match s.main
    case Closing => s.cell == SYNCHRONOUS && s.reaper.Absent? && s.frees == 0 && s.closes == 0
    case ReleasingFutures => s.cell == SYNCHRONOUS && s.reaper.Absent? && s.frees == 0 && s.closes == 0
    case Publishing => s.cell == SYNCHRONOUS && s.reaper.Absent? && s.frees == 0 && s.closes == 0
    case Spawning => s.cell == REAPING && s.reaper.Absent? && s.frees == 0 && s.closes == 0
    case Unpublishing => s.cell == REAPING && s.reaper.Absent? && s.frees == 0 && s.closes == 0
    case DrainingHere => s.cell == SYNCHRONOUS && s.reaper.Absent? && s.frees == 0 && s.closes == 0
    case ClosingHere =>
      s.cell == SYNCHRONOUS && s.reaper.Absent? && s.frees == 0 && s.closes == 0 && s.lookups + s.others == 0
    case Using(_) => s.frees == 0 && CellTells(s)
    case Loading => s.frees == 0 && CellTells(s)
    case Acting(seen) => s.frees == 0 && CellTells(s) && (seen == s.cell || (seen == REAPING && s.cell == REAPED))
    case Finished =>
      if s.reaper.Absent? || s.reaper.Ended? then s.frees == 1 && s.closes == 1
      else
        && s.frees == 0 && s.cell == ORPHANED
        && (s.reaper.Freeing? ==> s.reaper.current == ORPHANED)
        && (s.reaper.ClosingLoop? ==> s.lookups + s.others == 0)
        && s.closes == if s.reaper.Running? || s.reaper.ClosingLoop? then 0 else 1
  }

  /** A retry happens only once the reaper has finished, so there is at most one. */
  ghost predicate RetriesOk(s: System) {
    s.retries <= 1 && (s.retries == 1 ==> s.cell == REAPED && (s.main.Acting? ==> s.main.seen == REAPED))
  }

  ghost predicate Inv(s: System) {
    Ownership(s) && RetriesOk(s) && !s.touchedAfterFree && !s.panicked
  }

  lemma MainKeeps(s: System, spawns: bool)
    requires Inv(s)
    ensures Inv(MainStep(s, spawns))
  {
    if s.main.Using? || s.main.Loading? || s.main.Acting? || s.main.Finished? {
      ReleaseKeeps(s, spawns);
    } else {
      ClosingKeeps(s, spawns);
    }
  }

  /** While the loop is being closed, there is no reaper yet. */
  lemma ClosingKeeps(s: System, spawns: bool)
    requires Inv(s) && !(s.main.Using? || s.main.Loading? || s.main.Acting? || s.main.Finished?)
    ensures Inv(MainStep(s, spawns))
  {
  }

  /** Once it is closed, the cell tells who frees the block. */
  lemma ReleaseKeeps(s: System, spawns: bool)
    requires Inv(s) && (s.main.Using? || s.main.Loading? || s.main.Acting? || s.main.Finished?)
    ensures Inv(MainStep(s, spawns))
  {
  }

  lemma ReaperKeeps(s: System)
    requires Inv(s)
    ensures Inv(ReaperStep(s))
  {
  }

  // ----- termination

  /** How many steps the main thread can still take; after a stale look at the cell it has to look again. */
  ghost function MainRank(s: System): nat {
    match s.main
    case Closing => s.uses + 12
    case ReleasingFutures => s.uses + 11
    case Publishing => s.uses + 10
    case Spawning => s.uses + 9
    case Unpublishing => s.uses + 8
    case DrainingHere => s.uses + 7
    case ClosingHere => s.uses + 6
    case Using(n) => n + 5
    case Loading => if s.cell == REAPING then 4 else 2
    case Acting(seen) => if seen == REAPING then 3 else 1
    case Finished => 0
  }

  ghost function ReaperRank(s: System): nat {
    match s.reaper
    case Absent =>
      if s.main.Closing? || s.main.ReleasingFutures? || s.main.Publishing? || s.main.Spawning? then 5 else 0
    case Running => 4
    case ClosingLoop => 3
    case Swapping => 2
    case Freeing(_) => 1
    case Ended => 0
  }

  ghost function Rank(s: System): nat {
    MainRank(s) + ReaperRank(s) + s.lookups + s.others
  }

  lemma StepDecreases(s: System, choice: Choice)
    requires Inv(s) && Enabled(s, choice)
    ensures Rank(Next(s, choice)) < Rank(s)
  {
  }

  lemma {:induction false} InterleavingKeeps(s: System, run: seq<Choice>)
    requires Inv(s) && Interleaving(s, run)
    ensures Inv(After(s, run)) && |run| + Rank(After(s, run)) <= Rank(s)
    decreases |run|
  {
    if run != [] {
      match run[0] {
        case Main(spawns) => MainKeeps(s, spawns);
        case Reaper => ReaperKeeps(s);
      }
      StepDecreases(s, run[0]);
      InterleavingKeeps(Next(s, run[0]), run[1..]);
    }
  }

  /**
   However the two threads interleave: the block is freed at most once and not touched
   afterwards, it is freed only after the libuv loop in it was closed, no panic is reached
   and the hand-off is retried at most once; the run is bounded; and when neither thread
   can continue, the block has been freed.
   */
  lemma HandOff(lookups: nat, others: nat, uses: nat, run: seq<Choice>)
    requires Interleaving(Start(lookups, others, uses), run)
    ensures var s := After(Start(lookups, others, uses), run);
      && s.frees <= 1 && s.closes <= 1 && (s.frees == 1 ==> s.closes == 1)
      && !s.touchedAfterFree && !s.panicked && s.retries <= 1
      && |run| <= lookups + others + uses + 17
      && ((forall choice :: !Enabled(s, choice)) <==> Quiescent(s))
      && (Quiescent(s) ==> s.frees == 1)
  {
    InterleavingKeeps(Start(lookups, others, uses), run);
    var s := After(Start(lookups, others, uses), run);
    assert Enabled(s, Main(true)) <==> !s.main.Finished?;
    assert Enabled(s, Reaper) <==> !s.reaper.Absent? && !s.reaper.Ended?;
  }

  /** Once the block is freed neither thread is left with a step that would touch it. */
  lemma FreedIsFinal(lookups: nat, others: nat, uses: nat, run: seq<Choice>)
    requires Interleaving(Start(lookups, others, uses), run)
    ensures var s := After(Start(lookups, others, uses), run); s.frees == 1 <==> Quiescent(s)
  {
    InterleavingKeeps(Start(lookups, others, uses), run);
  }

  // ----- who waits for the resolver

  ghost predicate AlwaysSpawns(run: seq<Choice>) {
    forall i :: 0 <= i < |run| && run[i].Main? ==> run[i].spawns
  }

  /** With lookups outstanding the reaper waits for them, never the closing thread; without any there is no reaper. */
  ghost predicate Delegated(s: System, lookups: nat) {
    if lookups > 0 then
      && !s.main.Unpublishing? && !s.main.DrainingHere? && !s.main.ClosingHere?
      && (if s.main.Closing? then s.lookups == lookups && s.reaper.Absent?
          else s.reaper.Absent? ==> s.main.ReleasingFutures? || s.main.Publishing? || s.main.Spawning?)
    else
      && s.reaper.Absent? && s.lookups == 0
      && !s.main.ReleasingFutures? && !s.main.Publishing? && !s.main.Spawning? && !s.main.Unpublishing?
  }

  lemma StepDelegates(s: System, lookups: nat, choice: Choice)
    requires Delegated(s, lookups) && Enabled(s, choice) && (choice.Main? ==> choice.spawns)
    ensures Delegated(Next(s, choice), lookups)
  {
  }

  lemma {:induction false} RunDelegates(s: System, lookups: nat, run: seq<Choice>)
    requires Delegated(s, lookups) && Interleaving(s, run) && AlwaysSpawns(run)
    ensures Delegated(After(s, run), lookups)
    decreases |run|
  {
    if run != [] {
      assert run[0].Main? ==> run[0].spawns;
      assert AlwaysSpawns(run[1..]) by {
        forall i | 0 <= i < |run| - 1 && run[1..][i].Main? ensures run[1..][i].spawns {
          assert run[1..][i] == run[i + 1];
        }
      }
      StepDelegates(s, lookups, run[0]);
      hide Delegated, Next, Enabled;
      RunDelegates(Next(s, run[0]), lookups, run[1..]);
    }
  }

  /** As long as a thread can be started, closing a loop never waits for a lookup. */
  lemma CloseDoesNotWait(lookups: nat, others: nat, uses: nat, run: seq<Choice>)
    requires Interleaving(Start(lookups, others, uses), run) && AlwaysSpawns(run)
    ensures Delegated(After(Start(lookups, others, uses), run), lookups)
  {
    RunDelegates(Start(lookups, others, uses), lookups, run);
  }
}
