/**
  The upload of stored charging records: starting at
  the newest, the ring of 200 slots is walked backwards until the records known to be uploaded,
  or the 8-record page that the next recharges overwrite.
 */
module RecordSync {

  const SLOTS: nat := 200
  const PAGE: nat := 8

  /** The slot k records before the newest one. */
  function Slot(last: nat, k: nat): (r: nat)
    requires last < SLOTS && k < SLOTS
    ensures r < SLOTS
  {
    if k <= last then last - k else last + SLOTS - k
  }

  /** The first n slots of the walk. */
  function Walked(last: nat, n: nat): (r: seq<nat>)
    requires last < SLOTS && n <= SLOTS
    ensures |r| == n && forall k :: 0 <= k < n ==> r[k] == Slot(last, k)
  {
    seq(n, k requires 0 <= k < n => Slot(last, k))
  }

  /** How many records before the newest a slot lies. */
  function Age(last: nat, slot: nat): (k: nat)
    requires last < SLOTS && slot < SLOTS
    ensures k < SLOTS && Slot(last, k) == slot
  {
    if slot <= last then last - slot else last + SLOTS - slot
  }

  /** The slots that hold records newer than `older`, going round the ring. */
  predicate After(older: nat, last: nat, slot: nat) {
    slot < SLOTS && if older <= last then older < slot <= last else slot <= last || slot > older
  }

  /** Slots written at least once: all of them once the ring has gone round. */
  predicate Written(last: nat, laps: nat, slot: nat) {
    slot < SLOTS && (laps >= 1 || slot <= last)
  }

  /** The page that new recharges are overwriting: behind the newest record, in the same page. */
  predicate BeingOverwritten(last: nat, slot: nat) {
    last < slot < SLOTS && slot / 8 == last / 8
  }

  /** Written, outside the page being overwritten, and not past the first record after `older`. */
  predicate WorthAsking(last: nat, laps: nat, older: nat, asked: seq<nat>) {
    && last < SLOTS
    && (forall slot :: slot in asked ==> Written(last, laps, slot) && !BeingOverwritten(last, slot))
    && forall k :: 0 <= k < |asked| - 1 ==> asked[k] != older + 1
  }

  /** Results of the three database operations for one record. */
  datatype Reply = Reply(written: bool, synced: bool, olderRead: bool)

  predicate Good(r: Reply) { r.written && r.synced && r.olderRead }

  predicate AlwaysAnswers(replies: seq<Reply>) { forall i :: 0 <= i < |replies| ==> Good(replies[i]) }

  datatype Outcome = Asked | Retried | Finished | Abandoned | Stalled

  class Uploader {
    const last: nat
    const laps: nat
    const older: nat
    var index: nat
    var lap: nat
    var asking: bool
    var retryEnabled: bool
    /** Slots requested so far, repeated requests for the same record counted once. */
    ghost var asked: seq<nat>
    /** Slots whose record has been written to the database. */
    ghost var stored: seq<nat>

    function Position(): int
      reads this
    {
      lap * SLOTS + index
    }

    /** The walk has requested the records from the newest down to the current one, and stored all but that. */
    ghost predicate Walking()
      reads this
    {
      Requested() && stored == asked[..|asked| - 1]
    }

    ghost predicate Requested()
      reads this
    {
      && last < SLOTS && index < SLOTS
      && 1 <= |asked| <= SLOTS && asked == Walked(last, |asked|)
      && index == Slot(last, |asked| - 1)
      && Position() == laps * SLOTS + last - (|asked| - 1)
      && (index <= last ==> lap == laps)
      && (index > last ==> laps >= 1 && lap == laps - 1 && index / PAGE > last / PAGE)
      && forall k :: 0 <= k < |asked| - 1 ==> Slot(last, k) != older + 1
    }

    /** `retry` is what an earlier walk left of the flag that allows one retry. */
    constructor (last: nat, laps: nat, older: nat, retry: bool)
      requires last < SLOTS
      ensures Walking() && asking && retryEnabled == retry && asked == [last] && stored == []
      ensures this.last == last && this.laps == laps && this.older == older
    {
      this.last, this.laps, this.older := last, laps, older;
      index, lap, asking, retryEnabled, asked, stored := last, laps, true, retry, [last], [];
    }

    /** The record of the current slot has arrived and is being written. */
    method HandleRecord(r: Reply) returns (o: Outcome)
      requires Walking()
      modifies this
      ensures o.Asked? ==> Walking() && asking && Position() == old(Position()) - 1 && asked == old(asked) + [index]
      ensures !o.Asked? ==> asked == old(asked)
      ensures stored == if r.written then old(stored) + [old(index)] else old(stored)
      ensures o.Retried? ==> Walking() && asking && index == old(index) && old(retryEnabled) && !retryEnabled
      ensures o.Finished? ==> Good(r) && Complete()
      ensures o.Finished? ==> Position() == old(Position()) || Position() == old(Position()) - 1
      ensures Good(r) <==> o.Asked? || o.Finished?
      ensures o.Retried? <==> !r.written && old(retryEnabled)
      ensures o.Abandoned? <==> r.written && r.synced && !r.olderRead
      ensures r.written ==> retryEnabled
    {
      asking := false;
      if !r.written {
        if !retryEnabled { return Stalled; }
        retryEnabled, asking := false, true;
        return Retried;
      }
      retryEnabled := true;
      stored := stored + [index];
      if !r.synced { return Stalled; }
      if !r.olderRead { return Abandoned; }
      o := MoveOn();
    }

    /** The record is safe in the database: on to the one before, unless the walk is complete. */
    method MoveOn() returns (o: Outcome)
      requires Requested() && stored == asked && !asking
      modifies this`index, this`lap, this`asking, this`asked
      ensures o.Asked? || o.Finished?
      ensures o.Asked? ==> Walking() && asking && Position() == old(Position()) - 1 && asked == old(asked) + [index]
      ensures o.Finished? ==> Complete() && asked == old(asked)
      ensures o.Finished? ==> Position() == old(Position()) || Position() == old(Position()) - 1
    {
      if index == older + 1 {
        CompleteAtOlder();
        return Finished;
      }
      var moved := StepBack();
      if !moved {
        CompleteAtFirstLap();
        return Finished;
      }
      if index < last || index / PAGE > last / PAGE {
        asking := true;
        NoteRequest();
        return Asked;
      }
      CompleteAtPage();
      return Finished;
    }

    ghost method NoteRequest()
      requires Stepped() && (index < last || index / PAGE > last / PAGE)
      modifies this`asked
      ensures Walking() && asked == old(asked) + [index]
    {
      assert |asked| < SLOTS;
      asked := asked + [index];
    }

    /** One record back: to the slot before, or from slot 0 to the end of the previous lap. */
    method StepBack() returns (moved: bool)
      requires Requested() && stored == asked && index != older + 1
      modifies this`index, this`lap
      ensures moved ==> Stepped() && Position() == old(Position()) - 1
      ensures !moved ==> Requested() && Position() == old(Position()) && index == 0 && laps == 0
    {
      moved := true;
      if index > 0 {
        index := index - 1;
      } else if laps >= 1 {
        index, lap := SLOTS - 1, laps - 1;
      } else {
        moved := false;
      }
    }

    /** The walk has just moved past the last slot it requested. */
    ghost predicate Stepped()
      reads this
    {
      && last < SLOTS && index < SLOTS && stored == asked
      && 1 <= |asked| <= SLOTS && asked == Walked(last, |asked|)
      && (if |asked| < SLOTS then index == Slot(last, |asked|) else index == last)
      && Position() == laps * SLOTS + last - |asked|
      && (index < last ==> lap == laps)
      && (index > last ==> laps >= 1 && lap == laps - 1)
      && forall k :: 0 <= k < |asked| ==> Slot(last, k) != older + 1
    }

    /** Every record after `older` has been stored, but for the page being overwritten. */
    ghost predicate Complete()
      reads this
    {
      last < SLOTS && forall slot: nat ::
        (After(older, last, slot) && Written(last, laps, slot)) ==> slot in stored || BeingOverwritten(last, slot)
    }

    /** The walk came past the older slots of the ring only, and the current one is the nearest to the page. */
    lemma AllWorth()
      requires Requested()
      ensures WorthAsking(last, laps, older, asked)
    {
      forall slot | slot in asked ensures Written(last, laps, slot) && !BeingOverwritten(last, slot) {
        var k :| 0 <= k < |asked| && asked[k] == slot;
        assert slot > last ==> index > last && index <= slot;
      }
    }

    lemma CompleteAtOlder()
      requires Requested() && stored == asked && index == older + 1
      ensures Complete()
    {
      forall slot: nat | After(older, last, slot) ensures slot in stored {
        assert Age(last, slot) < |asked|;
        assert asked[Age(last, slot)] == slot;
      }
    }

    lemma CompleteAtFirstLap()
      requires Requested() && stored == asked && index == 0 && laps == 0
      ensures Complete()
    {
      forall slot: nat | Written(last, laps, slot) ensures slot in stored {
        assert asked[Age(last, slot)] == slot;
      }
    }

    /** Stepping into the page of the newest record ends the walk round the ring. */
    lemma CompleteAtPage()
      requires Stepped() && last <= index && index / PAGE <= last / PAGE
      ensures Complete()
    {
      forall slot: nat | slot < SLOTS && !BeingOverwritten(last, slot) ensures slot in stored {
        assert Age(last, slot) < |asked|;
        assert asked[Age(last, slot)] == slot;
      }
    }
  }

  /** With nothing to stop it earlier, the walk comes to all 200 slots of the ring. */
  lemma RingHas200(last: nat)
    requires last < SLOTS
    ensures forall slot :: 0 <= slot < 200 <==> slot in Walked(last, SLOTS)
  {
    forall slot: nat | slot < 200 ensures slot in Walked(last, SLOTS) {
      assert Walked(last, SLOTS)[Age(last, slot)] == slot;
    }
  }

  /** No slot is requested twice. */
  lemma WalkedDistinct(last: nat, n: nat, i: nat, j: nat)
    requires last < SLOTS && i < j < n <= SLOTS
    ensures Walked(last, n)[i] != Walked(last, n)[j]
  {
  }

  /**
    A whole synchronisation against any sequence of database results: at most 200 records are
    requested, none twice, newest first, none that was never written or is being overwritten, and
    none after the one that follows `older`; a normal end has stored all it had to.  With a database
    that answers, the walk comes to that end.
   */
  method Synchronise(last: nat, laps: nat, older: nat, retry: bool, replies: seq<Reply>)
    returns (o: Outcome, asked: seq<nat>, stored: seq<nat>)
    requires last < SLOTS
    ensures |asked| <= 200 && asked == Walked(last, |asked|) && stored <= asked
    ensures WorthAsking(last, laps, older, asked)
    ensures o.Finished? ==> forall slot: nat ::
              (After(older, last, slot) && Written(last, laps, slot)) ==> slot in stored || BeingOverwritten(last, slot)
    ensures AlwaysAnswers(replies) && |replies| >= 200 ==> o.Finished?
  {
    var u := new Uploader(last, laps, older, retry);
    asked, stored, o := [last], [], Asked;
    var i := 0;
    while i < |replies| && (o.Asked? || o.Retried?)
      invariant 0 <= i <= |replies|
      invariant asked == u.asked && 1 <= |asked| <= SLOTS && asked == Walked(last, |asked|) && !o.Finished?
      invariant o.Asked? || o.Retried? ==> u.Walking()
      invariant WorthAsking(last, laps, older, asked) && u.last == last && u.laps == laps && u.older == older
      invariant AlwaysAnswers(replies) ==> o.Asked? && |asked| == i + 1
      invariant stored == u.stored && stored <= asked && fresh(u)
    {
      if replies[i].written { stored := stored + [u.index]; }
      o := u.HandleRecord(replies[i]);
      if o.Asked? {
        asked := asked + [u.index];
        u.AllWorth();
      }
      i := i + 1;
      if o.Finished? { return; }
    }
  }
}
