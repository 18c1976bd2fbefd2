/** The maintenance backup: stop both services, copy, start them again, and leave a record that says how it ended. */
module Backup {

  datatype Service = Bot | Gateway

  datatype Flags = Flags(bot: bool, gateway: bool) {
    predicate Of(s: Service) { if s.Bot? then bot else gateway }
    function With(s: Service, running: bool): Flags {
      if s.Bot? then this.(bot := running) else this.(gateway := running)
    }
  }

  datatype Stage =
    | Prepared | Stopping | Stopped | Copied | Packed | Completed | FailedServicesRestored | NeedsServiceReview

  /** One line of a journal: a record that can be read back, or what a torn write left. */
  datatype Line = Record(stage: Stage) | Garbled

  /** A journal file; `unfinished` when its last line has no newline yet, so that the next record would run into it. */
  datatype Journal = Journal(lines: seq<Line>, unfinished: bool)

  function Append(j: Journal, stage: Stage, newline: bool): Journal {
    if j.unfinished && j.lines != [] then Journal(j.lines[..|j.lines| - 1] + [Garbled], !newline)
    else Journal(j.lines + [Record(stage)], !newline)
  }

  function Tear(j: Journal): Journal {
    if j.unfinished && j.lines != [] then Journal(j.lines[..|j.lines| - 1] + [Garbled], true)
    else Journal(j.lines + [Garbled], true)
  }

  /** The last line says that the services are back as they were. */
  predicate Closed(j: Journal) {
    j.lines != [] && j.lines[|j.lines| - 1] in {Record(Completed), Record(FailedServicesRestored)}
  }

  predicate EndsWith(j: Journal, stage: Stage) { j.lines != [] && j.lines[|j.lines| - 1] == Record(stage) }

  predicate Clear(journals: seq<Journal>) { forall j | j in journals :: Closed(j) }

  datatype Outcome = Fine | Error | Interrupt

  datatype Act =
    | Copying(file: nat, at: Flags)
    | Starting(service: Service, at: Flags)
    | Halting(service: Service, at: Flags)

  /** What a backup may do to the services that were `was` when it began. */
  predicate Allowed(act: Act, was: Flags) {
    match act
    case Copying(_, at) => !at.bot && !at.gateway
    case Starting(s, at) => was.Of(s) && (s.Bot? ==> at.gateway)
    case Halting(s, at) => was.Of(s) && (s.Gateway? ==> !at.bot)
  }

  /** `acts` carries on from `earlier`, and everything new in it is allowed. */
  ghost predicate Extends(acts: seq<Act>, earlier: seq<Act>, was: Flags) {
    && |earlier| <= |acts| && acts[..|earlier|] == earlier
    && forall i | |earlier| <= i < |acts| :: Allowed(acts[i], was)
  }

  /** File number `f` has been copied since `earlier`, with both services stopped. */
  ghost predicate FileCopied(acts: seq<Act>, earlier: seq<Act>, f: nat) {
    exists i | |earlier| <= i < |acts| :: acts[i] == Copying(f, Flags(false, false))
  }

  ghost predicate CopiedSince(acts: seq<Act>, earlier: seq<Act>, files: nat) {
    forall f: nat | f < files :: FileCopied(acts, earlier, f)
  }

  lemma CopiesStay(acts: seq<Act>, later: seq<Act>, earlier: seq<Act>, since: seq<Act>, files: nat)
    requires CopiedSince(acts, earlier, files) && |acts| <= |later| && later[..|acts|] == acts && |since| <= |earlier|
    ensures CopiedSince(later, since, files)
  {
    forall f: nat | f < files
      ensures FileCopied(later, since, f)
    {
      assert FileCopied(acts, earlier, f);
      var i :| |earlier| <= i < |acts| && acts[i] == Copying(f, Flags(false, false));
      assert later[..|acts|][i] == later[i];
    }
  }

  /** The host: two containers, the journals of all backups, and the record of what was done. Only the commands below
    change a container, and a command has had its effect, or never will, when it ends. Every step may fail, be
    interrupted, or claim a success it did not have; `faults` counts that, before and during the restoration, and
    `recordFaults` counts the records that could not be written. */
  class Host {
    var flags: Flags
    var journals: seq<Journal>       // of earlier backups
    var record: Journal              // of the backup under way; it joins the others when the backup ends
    ghost var acts: seq<Act>
    ghost var restoring: bool
    ghost var faultsBefore: nat
    ghost var faultsRestoring: nat
    ghost var recordFaults: nat

    constructor (flags: Flags, journals: seq<Journal>)
      ensures this.flags == flags && this.journals == journals && acts == [] && !restoring
    {
      this.flags, this.journals, record := flags, journals, Journal([], false);
      acts, restoring, faultsBefore, faultsRestoring, recordFaults := [], false, 0, 0, 0;
    }

    /** Counts a fault against the stage it falls in. */
    ghost method Blame(fault: bool)
      modifies this`faultsBefore, this`faultsRestoring
      ensures faultsBefore == old(faultsBefore) + if fault && !restoring then 1 else 0
      ensures faultsRestoring == old(faultsRestoring) + if fault && restoring then 1 else 0
    {
      if fault && restoring {
        faultsRestoring := faultsRestoring + 1;
      } else if fault {
        faultsBefore := faultsBefore + 1;
      }
    }

    /** Any step that touches neither a container nor a journal. */
    method Attempt() returns (o: Outcome)
      modifies this`faultsBefore, this`faultsRestoring
      ensures faultsBefore == old(faultsBefore) + if !o.Fine? && !restoring then 1 else 0
      ensures faultsRestoring == old(faultsRestoring) + if !o.Fine? && restoring then 1 else 0
    {
      o := *;
      Blame(!o.Fine?);
    }

    /** `container`: the running flag, or an error (also when the identity is not the expected one). */
    method Inspect(s: Service) returns (o: Outcome, running: bool)
      modifies this`faultsBefore, this`faultsRestoring
      ensures running == flags.Of(s)
      ensures faultsBefore == old(faultsBefore) + if !o.Fine? && !restoring then 1 else 0
      ensures faultsRestoring == old(faultsRestoring) + if !o.Fine? && restoring then 1 else 0
    {
      o := Attempt();
      running := flags.Of(s);
    }

    /** docker stop / docker start: whatever the command reports, the flag may or may not have changed. */
    method Command(s: Service, target: bool) returns (o: Outcome)
      modifies this`flags, this`acts, this`faultsBefore, this`faultsRestoring
      ensures flags == old(flags) || flags == old(flags).With(s, target)
      ensures acts == old(acts) + [if target then Starting(s, old(flags)) else Halting(s, old(flags))]
      ensures var fault := !o.Fine? || flags.Of(s) != target;
        && faultsBefore == old(faultsBefore) + (if fault && !restoring then 1 else 0)
        && faultsRestoring == old(faultsRestoring) + (if fault && restoring then 1 else 0)
    {
      var took: bool := *;
      o := *;
      acts := acts + [if target then Starting(s, flags) else Halting(s, flags)];
      if took {
        flags := flags.With(s, target);
      }
      Blame(!o.Fine? || flags.Of(s) != target);
    }

    /** event: appends a record to the newest journal; a failing write may leave nothing, a part, or all of it. */
    method Event(stage: Stage) returns (o: Outcome)
      modifies this`record, this`faultsBefore, this`faultsRestoring, this`recordFaults
      ensures recordFaults == old(recordFaults) + if o.Fine? then 0 else 1
      ensures var j := old(record);
        if o.Fine? then record == Append(j, stage, true)
        else record == j || record == Tear(j) || record == Append(j, stage, true) || record == Append(j, stage, false)
      ensures faultsBefore == old(faultsBefore) + if !o.Fine? && !restoring then 1 else 0
      ensures faultsRestoring == old(faultsRestoring) + if !o.Fine? && restoring then 1 else 0
    {
      o := Attempt();
      if o.Fine? {
        record := Append(record, stage, true);
      } else {
        var left: int := *;
        record := if left <= 0 then record else if left == 1 then Tear(record) else Append(record, stage, left == 2);
        recordFaults := recordFaults + 1;
      }
    }

    /** Stops one running service and makes sure that it has stopped. */
    method Halt(s: Service, was: Flags) returns (o: Outcome)
      requires !restoring && Resting(record)
      requires was.Of(s) && (s.Gateway? ==> !flags.bot)
      modifies this`flags, this`record, this`acts, this`faultsBefore, this`faultsRestoring, this`recordFaults
      ensures flags == old(flags) || flags == old(flags).With(s, false)
      ensures o.Fine? ==> !flags.Of(s)
      ensures Extends(acts, old(acts), was)
      ensures Resting(record)
      ensures recordFaults >= old(recordFaults)
      ensures !old(record).unfinished && recordFaults == old(recordFaults) ==>
                record == Journal(old(record).lines + [Record(Stopping)], false)
      ensures o.Fine? ==> recordFaults == old(recordFaults)
      ensures faultsRestoring == old(faultsRestoring) && faultsBefore >= old(faultsBefore)
      ensures faultsBefore == old(faultsBefore) ==> o.Fine?
    {
      o := Event(Stopping);
      if o.Fine? {
        o := Command(s, false);
        if o.Fine? {
          var running;
          o, running := Inspect(s);
          o := if o.Fine? && running then Error else o;
        }
      }
    }

    /** Copies the files one by one; each copy is recorded with the flags it was made under. */
    method CopyFiles(files: nat) returns (o: Outcome)
      requires !restoring && flags == Flags(false, false)
      modifies this`acts, this`faultsBefore, this`faultsRestoring
      ensures Extends(acts, old(acts), flags)
      ensures o.Fine? ==> CopiedSince(acts, old(acts), files)
      ensures faultsRestoring == old(faultsRestoring) && faultsBefore >= old(faultsBefore)
      ensures faultsBefore == old(faultsBefore) ==> o.Fine?
    {
      var copied := 0;
      o := Fine;
      while copied < files && o.Fine?
        invariant 0 <= copied <= files && flags == old(flags)
        invariant Extends(acts, old(acts), flags)
        invariant CopiedSince(acts, old(acts), copied)
        invariant faultsRestoring == old(faultsRestoring) && faultsBefore >= old(faultsBefore)
        invariant faultsBefore == old(faultsBefore) ==> o.Fine?
        decreases files - copied
      {
        ghost var earlier := acts;
        acts := acts + [Copying(copied, flags)];
        CopiesStay(earlier, acts, old(acts), old(acts), copied);
        assert acts[|acts| - 1] == Copying(copied, Flags(false, false));
        o := Attempt();
        copied := copied + 1;
      }
    }

    /** One service down: it must be as it was when the backup began; if it runs it is stopped. */
    method CheckAndHalt(s: Service, was: Flags) returns (o: Outcome, begun: bool)
      requires !restoring && Resting(record)
      requires flags.Of(s) == was.Of(s) && (s.Gateway? ==> !flags.bot)
      modifies this`flags, this`record, this`acts, this`faultsBefore, this`faultsRestoring, this`recordFaults
      ensures begun ==> was.Of(s)
      ensures flags == old(flags) || (begun && flags == old(flags).With(s, false))
      ensures o.Fine? ==> !flags.Of(s) && begun == was.Of(s)
      ensures Extends(acts, old(acts), was)
      ensures Resting(record)
      ensures recordFaults >= old(recordFaults) && (o.Fine? ==> recordFaults == old(recordFaults))
      ensures recordFaults == old(recordFaults) && !old(record).unfinished ==>
                && !record.unfinished
                && record.lines
                     == old(record).lines + if begun then [Record(Stopping)] else []
      ensures faultsRestoring == old(faultsRestoring) && faultsBefore >= old(faultsBefore)
      ensures faultsBefore == old(faultsBefore) ==> o.Fine?
    {
      var running;
      o, running := Inspect(s);
      o := if o.Fine? && running != was.Of(s) then Error else o;
      begun := o.Fine? && was.Of(s);
      if begun {
        o := Halt(s, was);
      }
    }

    /** The first loop: both services stopped, Bot first. */
    method HaltAll(was: Flags) returns (o: Outcome, stopped: seq<Service>)
      requires flags == was && !restoring && (was.bot ==> was.gateway)
      requires Resting(record) && !record.unfinished
      modifies this`flags, this`record, this`acts, this`faultsBefore, this`faultsRestoring, this`recordFaults
      ensures stopped in {[], [Bot], [Gateway], [Bot, Gateway]}
      ensures forall s | s in stopped :: was.Of(s)
      ensures forall s: Service | s !in stopped :: flags.Of(s) == was.Of(s)
      ensures Extends(acts, old(acts), was)
      ensures Resting(record)
      ensures o.Fine? ==> flags == Flags(false, false) && recordFaults == old(recordFaults)
      ensures recordFaults >= old(recordFaults)
      ensures recordFaults == old(recordFaults) ==> !record.unfinished
      ensures o.Fine? ==> record.lines == old(record).lines + Stops(was)
      ensures faultsRestoring == old(faultsRestoring) && faultsBefore >= old(faultsBefore)
      ensures faultsBefore == old(faultsBefore) ==> o.Fine?
    {
      o, stopped := Fine, [];
      var services := [Bot, Gateway];
      var i := 0;
      while i < 2 && o.Fine?
        invariant 0 <= i <= 2
        invariant i == 0 ==> stopped == []
        invariant i == 1 ==> stopped == [] || stopped == [Bot]
        invariant stopped == [] || stopped == [Bot] || stopped == [Gateway] || stopped == [Bot, Gateway]
        invariant forall s | s in stopped :: was.Of(s)
        invariant Bot !in stopped ==> flags.bot == was.bot
        invariant Gateway !in stopped ==> flags.gateway == was.gateway
        invariant o.Fine? && i >= 1 ==> !flags.bot
        invariant o.Fine? && i >= 2 ==> !flags.gateway
        invariant Extends(acts, old(acts), was)
        invariant Resting(record)
        invariant recordFaults >= old(recordFaults) && (o.Fine? ==> recordFaults == old(recordFaults))
        invariant recordFaults == old(recordFaults) ==> !record.unfinished
        invariant o.Fine? ==>
          record.lines == old(record).lines
            + (if i >= 1 && was.bot then [Record(Stopping)] else [])
            + (if i >= 2 && was.gateway then [Record(Stopping)] else [])
        invariant faultsRestoring == old(faultsRestoring) && faultsBefore >= old(faultsBefore)
        invariant faultsBefore == old(faultsBefore) ==> o.Fine?
        decreases 2 - i
      {
        var s := services[i];
        var begun;
        o, begun := CheckAndHalt(s, was);
        stopped := if begun then stopped + [s] else stopped;
        i := i + 1;
      }
    }

    /** The body of the `try`: stop what runs, then copy and pack. */
    method StopAndCopy(was: Flags, files: nat) returns (o: Outcome, stopped: seq<Service>, complete: bool)
      requires flags == was && !restoring && (was.bot ==> was.gateway)
      requires Resting(record) && !record.unfinished
      modifies this`flags, this`record, this`acts, this`faultsBefore, this`faultsRestoring, this`recordFaults
      ensures stopped in {[], [Bot], [Gateway], [Bot, Gateway]}
      ensures forall s | s in stopped :: was.Of(s)
      ensures forall s: Service | s !in stopped :: flags.Of(s) == was.Of(s)
      ensures Extends(acts, old(acts), was)
      ensures Resting(record)
      ensures complete <==> o.Fine?
      ensures complete ==> CopiedSince(acts, old(acts), files)
      ensures complete ==> recordFaults == old(recordFaults)
      ensures recordFaults >= old(recordFaults)
      ensures recordFaults == old(recordFaults) ==> !record.unfinished
      ensures complete ==>
                record.lines == old(record).lines + Stops(was)
                  + [Record(Stopped), Record(Copied), Record(Packed)]
      ensures faultsRestoring == old(faultsRestoring) && faultsBefore >= old(faultsBefore)
      ensures faultsBefore == old(faultsBefore) ==> complete
    {
      complete := false;
      ghost var before := acts;
      o, stopped := HaltAll(was);
      if !o.Fine? { return; }
      ghost var halted := acts;
      o := CopyAndPack(was, files);
      complete := o.Fine?;
      if complete {
        CopiesStay(acts, acts, halted, before, files);
      }
    }

    /** With both services down: check again, copy the files and pack them, each stage on record. */
    method CopyAndPack(was: Flags, files: nat) returns (o: Outcome)
      requires flags == Flags(false, false) && !restoring
      requires Resting(record) && !record.unfinished
      modifies this`record, this`acts, this`faultsBefore, this`faultsRestoring, this`recordFaults
      ensures Extends(acts, old(acts), was)
      ensures Resting(record)
      ensures o.Fine? ==> CopiedSince(acts, old(acts), files)
      ensures recordFaults >= old(recordFaults) && (o.Fine? ==> recordFaults == old(recordFaults))
      ensures recordFaults == old(recordFaults) ==> !record.unfinished
      ensures o.Fine? ==>
                record.lines
                  == old(record).lines + [Record(Stopped), Record(Copied), Record(Packed)]
      ensures faultsRestoring == old(faultsRestoring) && faultsBefore >= old(faultsBefore)
      ensures faultsBefore == old(faultsBefore) ==> o.Fine?
    {
      o := Event(Stopped);
      if !o.Fine? { return; }
      o := Attempt();                           // active tasks, the list of files, the free space
      if !o.Fine? { return; }
      o := CopyFiles(files);
      if !o.Fine? { return; }
      o := Event(Copied);
      if !o.Fine? { return; }
      o := Attempt();                           // pack
      if !o.Fine? { return; }
      o := Event(Packed);
    }

    /** One service again: check who it is, start it if it does not run, check that it runs. */
    method Reopen(s: Service, was: Flags) returns (o: Outcome)
      requires restoring && was.Of(s) && (s.Bot? ==> flags.gateway)
      modifies this`flags, this`acts, this`faultsBefore, this`faultsRestoring
      ensures flags == old(flags) || flags == old(flags).With(s, true)
      ensures Extends(acts, old(acts), was)
      ensures o.Fine? ==> flags.Of(s)
      ensures faultsBefore == old(faultsBefore) && faultsRestoring >= old(faultsRestoring)
      ensures faultsRestoring == old(faultsRestoring) ==> o.Fine?
    {
      var running;
      o, running := Inspect(s);
      if o.Fine? && !running {
        o := Command(s, true);
        if o.Fine? {
          o, running := Inspect(s);
          o := if o.Fine? && !running then Error else o;
        }
      }
    }

    /** The `finally`: gateway before Bot, nothing that was not stopped here, and the closing record. */
    method Restore(was: Flags, stopped: seq<Service>, complete: bool) returns (o: Outcome)
      requires restoring && Resting(record)
      requires stopped in {[], [Bot], [Gateway], [Bot, Gateway]} && (was.bot ==> was.gateway)
      requires forall s | s in stopped :: was.Of(s)
      requires forall s: Service | s !in stopped :: flags.Of(s) == was.Of(s)
      modifies this`flags, this`record, this`acts, this`faultsBefore, this`faultsRestoring, this`recordFaults
      ensures Extends(acts, old(acts), was)
      ensures Closed(record) ==> flags == was
      ensures faultsBefore == old(faultsBefore) && faultsRestoring >= old(faultsRestoring)
      ensures faultsRestoring == old(faultsRestoring) ==> o.Fine?
      ensures o.Fine? ==> flags == was
      ensures o.Fine? ==> var closing := if complete then Completed else FailedServicesRestored;
                record == Append(old(record), closing, true)
      ensures recordFaults >= old(recordFaults) && (o.Fine? ==> recordFaults == old(recordFaults))
      // an operator is called in when a service could not be brought back
      ensures o.Error? && recordFaults == old(recordFaults) ==>
                record == Append(old(record), NeedsServiceReview, true)
    {
      var failures: seq<Service> := [];
      var k := |stopped|;
      assert stopped == [] ==> flags.Of(Bot) == was.Of(Bot) && flags.Of(Gateway) == was.Of(Gateway);
      assert Bot !in stopped ==> flags.Of(Bot) == was.Of(Bot);
      while k > 0
        invariant 0 <= k <= |stopped|
        invariant k == |stopped| ==> flags == old(flags) && failures == []
        invariant k < |stopped| ==> flags.gateway == was.gateway
        invariant Bot !in stopped ==> flags.bot == was.bot
        invariant k == 0 && failures == [] ==> flags == was
        invariant Extends(acts, old(acts), was)
        invariant faultsBefore == old(faultsBefore) && faultsRestoring >= old(faultsRestoring)
        invariant failures != [] ==> faultsRestoring > old(faultsRestoring)
        invariant record == old(record) && recordFaults == old(recordFaults)
      {
        k := k - 1;
        var s := stopped[k];
        assert s.Bot? ==> flags.Of(Gateway) == was.Of(Gateway);
        o := Reopen(s, was);
        if o.Interrupt? {
          return;
        }
        if o.Error? {
          failures := failures + [s];
          if s.Gateway? {
            break;
          }
        }
      }
      if failures != [] {
        o := Event(NeedsServiceReview);
        o := if o.Fine? then Error else o;
        return;
      }
      o := Event(if complete then Completed else FailedServicesRestored);
    }

    /** Some earlier backup has not said how it ended. */
    method FindOpen() returns (blocked: bool)
      ensures blocked <==> !Clear(journals)
    {
      var i := 0;
      while i < |journals|
        invariant 0 <= i <= |journals| && forall k | 0 <= k < i :: Closed(journals[k])
      {
        if !Closed(journals[i]) {
          return true;
        }
        i := i + 1;
      }
      return false;
    }

    /** The checks before anything is touched. */
    method Preflight() returns (o: Outcome)
      modifies this`faultsBefore, this`faultsRestoring
      ensures o.Fine? ==> Clear(journals) && (flags.bot ==> flags.gateway)
      ensures faultsBefore >= old(faultsBefore) && (!restoring ==> faultsRestoring == old(faultsRestoring))
      ensures faultsBefore == old(faultsBefore) && faultsRestoring == old(faultsRestoring) ==>
                (o.Fine? <==> Clear(journals) && (flags.bot ==> flags.gateway))
    {
      o := Attempt();                           // the directory, the files, no active task, both containers
      if !o.Fine? {
        return;
      }
      if flags.bot && !flags.gateway {
        o := Error;
        return;
      }
      var blocked := FindOpen();
      if blocked {
        o := Error;
        return;
      }
      o := Attempt();                           // the free space
    }

    /** The backup once its journal has been opened. */
    method Recorded(files: nat) returns (o: Outcome)
      requires !restoring && record == Journal([], false) && (flags.bot ==> flags.gateway)
      modifies this`flags, this`record, this`acts, this`faultsBefore, this`faultsRestoring, this`recordFaults,
               this`restoring
      ensures Extends(acts, old(acts), old(flags))
      ensures Closed(record) ==> flags == old(flags)
      ensures o.Fine? ==> flags == old(flags) && Closed(record) && CopiedSince(acts, old(acts), files)
      ensures o.Fine? ==>
                record == Journal([Record(Prepared)] + Stops(old(flags))
                  + [Record(Stopped), Record(Copied), Record(Packed), Record(Completed)], false)
      ensures !o.Fine? ==>
                faultsRestoring > old(faultsRestoring) || recordFaults > old(recordFaults)
                || (EndsWith(record, FailedServicesRestored) && Closed(record))
      ensures faultsRestoring >= old(faultsRestoring) && faultsBefore >= old(faultsBefore)
      ensures faultsRestoring == old(faultsRestoring) ==> flags == old(flags)
      ensures faultsRestoring == old(faultsRestoring) && faultsBefore == old(faultsBefore) ==> o.Fine?
      ensures recordFaults >= old(recordFaults) && !restoring
    {
      var was := flags;
      o := Event(Prepared);
      if !o.Fine? {
        return;
      }
      var stopped, complete;
      o, stopped, complete := StopAndCopy(was, files);
      restoring := true;
      ghost var copied := acts;
      var after := Restore(was, stopped, complete);
      restoring := false;
      if complete {
        CopiesStay(copied, acts, old(acts), old(acts), files);
      }
      if !after.Fine? {
        o := after;
      }
    }

    /** create: the backup as a whole. */
    method Create(files: nat) returns (o: Outcome)
      requires !restoring
      modifies this
      // a backup that is refused has touched nothing
      ensures !Clear(old(journals)) || (old(flags).bot && !old(flags).gateway) ==> !o.Fine? && acts == old(acts)
      ensures Backed(Snapshot(old(flags), old(journals)), Snapshot(flags, journals))
      // copies only with both services stopped; starts only what ran at first, the Bot only beside a running gateway
      ensures Extends(acts, old(acts), old(flags))
      // a returned archive was copied in full, and its journal says so stage by stage
      ensures o.Fine? ==>
                && flags == old(flags) && |journals| == |old(journals)| + 1 && Closed(journals[|journals| - 1])
                && CopiedSince(acts, old(acts), files)
      ensures o.Fine? ==>
                journals[|journals| - 1] == Journal([Record(Prepared)] + Stops(old(flags))
                  + [Record(Stopped), Record(Copied), Record(Packed), Record(Completed)], false)
      // a backup that has begun and fails says that the services are back, if they are and records can be written
      ensures !o.Fine? && |journals| > |old(journals)| ==>
                faultsRestoring > old(faultsRestoring) || recordFaults > old(recordFaults)
                || (EndsWith(journals[|journals| - 1], FailedServicesRestored) && Closed(journals[|journals| - 1]))
      // whatever fails before the restoration, the services come back if the restoration itself meets no fault
      ensures faultsRestoring == old(faultsRestoring) ==> flags == old(flags)
      // and a backup that may start and meets no fault at all completes
      ensures Clear(old(journals)) && (old(flags).bot ==> old(flags).gateway)
        && faultsRestoring == old(faultsRestoring) && faultsBefore == old(faultsBefore)
        ==> o.Fine? && Clear(journals)
      ensures !restoring
    {
      o := Preflight();
      if o.Fine? {
        record := Journal([], false);
        o := Recorded(files);
        journals := journals + [record];
        assert journals[..|journals| - 1] == old(journals);
      }
    }
  }

  /** The records of the services that are stopped. */
  function Stops(was: Flags): seq<Line> {
    (if was.bot then [Record(Stopping)] else []) + if was.gateway then [Record(Stopping)] else []
  }

  /** Not the last word yet: no earlier event can be taken for a closing record. */
  predicate Resting(j: Journal) { !Closed(j) }

  datatype Snapshot = Snapshot(flags: Flags, journals: seq<Journal>)

  /** What one backup does to the host: nothing, or one more journal that is closed only over restored services. */
  ghost predicate Backed(before: Snapshot, after: Snapshot) {
    before == after
    || (&& Clear(before.journals) && |after.journals| == |before.journals| + 1
        && after.journals[..|before.journals|] == before.journals
        && (Closed(after.journals[|before.journals|]) ==> after.flags == before.flags))
  }

  /** Over any number of backups, with anything failing anywhere: either the services run as they did at first, or the
    next backup is refused until an operator has looked. */
  lemma {:induction false} ServicesKeptOrBlocked(run: seq<Snapshot>)
    requires run != [] && forall i | 0 < i < |run| :: Backed(run[i - 1], run[i])
    ensures run[|run| - 1].flags == run[0].flags || !Clear(run[|run| - 1].journals)
    decreases |run|
  {
    if |run| > 1 {
      var n := |run| - 1;
      ServicesKeptOrBlocked(run[..n]);
      assert Backed(run[n - 1], run[n]);
      if run[n - 1] != run[n] {
        assert run[n].journals[|run[n - 1].journals|] in run[n].journals;
      }
    }
  }
}
