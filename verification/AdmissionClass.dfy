/** Free-run admission as the scheduled thread owns it: one object updated in place, slots in an array. */
module AdmissionClass {
  import opened Basics
  import opened Payload
  import opened Admission

  class AdmissionControl {
    const cfg: Config
    var expected: u64
    var cycles: nat
    var warmupOccupancy: Option<nat>
    var lastNormal: Option<u64>
    var open: bool
    var integrity: bool
    var future: array<Option<Frame>>
    var newest: Option<Frame>
    var due: Option<Frame>
    var candidate: Option<Frame>
    var held: Option<Sensor>
    var latch: Option<Frame>
    var terminalCandidate: Option<Frame>
    var terminalSeen: seq<Frame>
    var cycle: Cycle
    var episode: Counts
    var recorded: Counts
    var terminals: TerminalCounts

    /** No cycle is ever open under a skew beyond the slots. */
    predicate Valid()
      reads this
    {
      future.Length == SLOTS && (open ==> cfg.Valid())
    }

    function Value(): State
      reads this, future
    {
      State(expected, cycles, warmupOccupancy, lastNormal, open, integrity, future[..], newest, due, candidate, held,
            latch, terminalCandidate, terminalSeen, cycle, episode, recorded, terminals)
    }

    constructor (cfg: Config)
      ensures this.cfg == cfg && Valid() && fresh(future) && Value() == Initial(cfg)
    {
      this.cfg := cfg;
      expected, cycles, warmupOccupancy, lastNormal, open, integrity := 0, 0, None, None, false, !cfg.Valid();
      var slots := new Option<Frame>[SLOTS](_ => None);
      future, newest, due, candidate, held, latch, terminalCandidate := slots, None, None, None, None, None, None;
      terminalSeen, cycle, episode, recorded, terminals := [], NO_CYCLE, NO_COUNTS, NO_COUNTS, NO_TERMINALS;
      new;
      assert future[..] == EmptySlots();
    }

    method FutureParked() returns (count: nat)
      requires Valid()
      ensures count == NormalParked(future[..])
    {
      count := 0;
      for i := 0 to future.Length
        invariant count == NormalParked(future[..i])
      {
        assert future[..i + 1][..i] == future[..i];
        if future[i].Some? && !future[i].value.Terminal() { count := count + 1; }
      }
      assert future[..future.Length] == future[..];
    }

    // Helpers, each with the fields it touches

    method Discard(kind: SensorClass, f: Frame)
      modifies `cycle, `integrity
      ensures cycle == Logged(old(cycle), kind, f) && integrity == (old(integrity) || Full(old(cycle)))
    {
      if |cycle.discards| == DISCARDS {
        integrity := true;
        return;
      }
      cycle := cycle.(discards := cycle.discards + [Admission.Discard(kind, f.sample.sendNs)]);
    }

    method Candidate(f: Frame)
      modifies `candidate, `cycle, `integrity
      ensures (candidate, cycle) == Offer(old(candidate), old(cycle), f)
      ensures integrity == (old(integrity) || (old(candidate).Some? && Full(old(cycle))))
    {
      if candidate.None? {
        candidate := Some(f);
        return;
      }
      cycle := cycle.(counts := cycle.counts.(superseded := cycle.counts.superseded + 1));
      if f.Tick() > candidate.value.Tick() {
        Discard(Current, candidate.value);
        candidate := Some(f);
      } else {
        Discard(Current, f);
      }
    }

    method Terminal(f: Frame)
      modifies `terminals, `integrity, `terminalCandidate
      ensures terminalCandidate == Notify(latch, old(terminalCandidate), f)
      ensures integrity == (old(integrity) || !LegalReason(f.sample.reason))
      ensures terminals == if LegalReason(f.sample.reason) then old(terminals)
                           else old(terminals).(illegalReason := old(terminals).illegalReason + 1)
    {
      if f.sample.reason < 1 || f.sample.reason > 3 {
        terminals := terminals.(illegalReason := terminals.illegalReason + 1);
        integrity := true;
      }
      if latch.None? && (terminalCandidate.None? || f.Tick() > terminalCandidate.value.Tick()) {
        terminalCandidate := Some(f);
      }
    }

    method Expire(f: Frame)
      modifies `integrity, `terminals, `cycle
      ensures Value() == Expired(old(Value()), f)
    {
      integrity := true;
      if f.Terminal() {
        terminals := terminals.(futureExpired := terminals.futureExpired + 1);
      } else {
        cycle := cycle.(counts := cycle.counts.(futureExpired := cycle.counts.futureExpired + 1));
      }
    }

    method Present(f: Frame)
      modifies `candidate, `cycle, `integrity, `terminals, `terminalCandidate
      ensures Value() == Presented(old(Value()), f)
    {
      hide Offer, Notify, Full, LegalReason;
      if f.Terminal() { Terminal(f); } else { Candidate(f); }
    }

    // Opening a cycle

    method ShiftSlot(slot: Option<Frame>)
      requires Valid() && cfg.Valid()
      modifies this, future
      ensures Valid() && future == old(future)
      ensures Value() == ShiftOne(cfg, old(Value()), slot)
    {
      hide Expired, Presented;
      if slot.None? { return; }
      var f := slot.value;
      if f.Tick() < expected {
        Expire(f);
      } else if f.Tick() == expected {
        due := Some(f);
        Present(f);
      } else {
        var distance := f.Tick() - expected;
        if distance > cfg.skewMax {
          Expire(f);
        } else {
          future[distance - 1] := Some(f);
        }
      }
    }

    method MarkOpening(tick: u64)
      requires Valid()
      modifies `integrity, `warmupOccupancy
      ensures integrity == (old(integrity) || (cycles != 0 && tick != expected + 1))
      ensures warmupOccupancy == if cycles == cfg.warmup then Some(NormalParked(future[..])) else old(warmupOccupancy)
    {
      if cycles != 0 && tick != expected + 1 { integrity := true; }
      if cycles == cfg.warmup {
        var parked := FutureParked();
        warmupOccupancy := Some(parked);
      }
    }

    method ResetCycle(tick: u64)
      requires cfg.Valid()
      modifies `expected, `open, `cycle, `candidate, `due, `terminalCandidate, `terminalSeen, `future
      ensures Valid() && fresh(future) && future[..] == EmptySlots()
      ensures expected == tick && open && cycle == NO_CYCLE && terminalSeen == []
      ensures candidate == None && due == None && terminalCandidate == None
    {
      expected, open, cycle := tick, true, NO_CYCLE;
      candidate, due, terminalCandidate, terminalSeen := None, None, None, [];
      future := new Option<Frame>[SLOTS](_ => None);
      assert future[..] == EmptySlots();
    }

    method OpenCycle(tick: u64)
      requires Valid() && cfg.Valid()
      modifies this
      ensures Valid() && fresh(future)
      ensures Value() == Opened(cfg, old(Value()), tick)
    {
      hide NormalParked, EmptySlots;
      MarkOpening(tick);
      ResetCycle(tick);
    }

    method BeginCycle(tick: u64) returns (ok: bool)
      requires Valid()
      modifies this, future
      ensures Valid() && (future == old(future) || fresh(future))
      ensures |old(Value()).future| == SLOTS && Value() == Admission.BeginCycle(cfg, old(Value()), tick)
      ensures ok == CanBegin(cfg, old(Value()), tick)
    {
      hide Shift, ShiftOne, Opened;
      if !cfg.Valid() || open || (cycles == 0 && tick != cfg.tickBase) || (cycles != 0 && tick <= expected) {
        integrity := true;
        return false;
      }
      var slots := future;
      ghost var before, was := Value(), future[..];
      OpenCycle(tick);
      ghost var o := Value();
      ShiftNone(cfg, o, was[..0]);
      for i := 0 to SLOTS
        invariant Valid() && fresh(future) && slots[..] == was && Value() == Shift(cfg, o, was[..i])
      {
        ShiftNext(cfg, o, was, i);
        ShiftSlot(slots[i]);
      }
      assert was[..SLOTS] == was;
      ok := true;
    }

    // One datagram

    method Identify(f: Frame) returns (prior: Option<Frame>)
      requires Valid()
      ensures prior == Identity(Value(), f)
    {
      var tick := f.Tick();
      if newest.Some? && newest.value.Tick() == tick { return newest; }
      if due.Some? && due.value.Tick() == tick { return due; }
      for i := 0 to future.Length
        invariant SlotWith(future[..], tick) == SlotWith(future[i..], tick)
      {
        assert future[i..][1..] == future[i + 1..];
        if future[i].Some? && future[i].value.Tick() == tick { return future[i]; }
      }
      if terminalCandidate.Some? && terminalCandidate.value.Tick() == tick { return terminalCandidate; }
      if latch.Some? && latch.value.Tick() == tick { return latch; }
      for i := 0 to |terminalSeen|
        invariant SeenWith(terminalSeen, tick) == SeenWith(terminalSeen[i..], tick)
      {
        assert terminalSeen[i..][1..] == terminalSeen[i + 1..];
        if terminalSeen[i].Tick() == tick { return Some(terminalSeen[i]); }
      }
      if f.Terminal() && candidate.Some? && candidate.value.Tick() == tick { return candidate; }
      return None;
    }

    method NoteAgain(f: Frame)
      modifies `terminalSeen, `terminals, `terminalCandidate, `integrity
      ensures terminalSeen == old(terminalSeen) + [f]
      ensures if f.Tick() <= expected then
                && terminalCandidate == Notify(latch, old(terminalCandidate), f)
                && integrity == (old(integrity) || !LegalReason(f.sample.reason))
                && terminals == (if LegalReason(f.sample.reason) then old(terminals)
                                 else old(terminals).(illegalReason := old(terminals).illegalReason + 1))
              else
                && terminalCandidate == old(terminalCandidate) && integrity == old(integrity)
                && terminals == old(terminals)
    {
      hide Notify, LegalReason;
      terminalSeen := terminalSeen + [f];
      if f.Tick() <= expected { Terminal(f); }
    }

    method RepeatNotice(f: Frame, same: bool)
      requires f.Terminal()
      modifies `terminals, `terminalSeen, `terminalCandidate, `integrity
      ensures Value() == Repeated(old(Value()), f, same)
    {
      hide Notify, LegalReason;
      if same {
        terminals := terminals.(duplicate := terminals.duplicate + 1);
        NoteAgain(f);
      } else {
        terminals := terminals.(conflict := terminals.conflict + 1);
        integrity := true;
      }
    }

    method RepeatSample(f: Frame, same: bool)
      requires !f.Terminal()
      modifies `cycle, `integrity
      ensures Value() == Repeated(old(Value()), f, same)
    {
      if same {
        cycle := cycle.(counts := cycle.counts.(duplicate := cycle.counts.duplicate + 1));
      } else {
        cycle := cycle.(counts := cycle.counts.(conflict := cycle.counts.conflict + 1));
        integrity := true;
      }
    }

    method Repeat(f: Frame, same: bool)
      modifies `terminals, `terminalSeen, `terminalCandidate, `integrity, `cycle
      ensures Value() == Repeated(old(Value()), f, same)
    {
      hide Repeated;
      if f.Terminal() { RepeatNotice(f, same); } else { RepeatSample(f, same); }
    }

    method Drop(kind: SensorClass, f: Frame, c: Counts)
      modifies `cycle, `integrity
      ensures Value() == Discarded(WithCounts(old(Value()), c), kind, f)
    {
      cycle := cycle.(counts := c);
      Discard(kind, f);
    }

    method Resolve(f: Frame) returns (kind: SensorClass)
      requires Valid() && cfg.Valid()
      modifies this, future
      ensures Valid() && future == old(future)
      ensures (Value(), kind) == Resolved(cfg, old(Value()), f)
    {
      hide Presented, Discarded;
      if !f.Terminal() && held.Some? && f.Tick() <= held.value.tick {
        Drop(Old, f, cycle.counts.(aged := cycle.counts.aged + 1));
        return Old;
      }
      if f.Tick() <= expected {
        Present(f);
        return Current;
      }
      var distance := f.Tick() - expected;
      if distance <= cfg.skewMax {
        future[distance - 1] := Some(f);
        return Future;
      }
      if f.Terminal() {
        terminals := terminals.(skewExcess := terminals.skewExcess + 1);
      } else {
        Drop(ExcessiveSkew, f, cycle.counts.(skewExcess := cycle.counts.skewExcess + 1));
      }
      integrity := true;
      return ExcessiveSkew;
    }

    method Place(f: Frame) returns (kind: SensorClass)
      requires Valid() && cfg.Valid()
      modifies this, future
      ensures Valid() && future == old(future)
      ensures (Value(), kind) == Placed(cfg, old(Value()), f)
    {
      hide Resolved;
      if f.Terminal() { terminalSeen := terminalSeen + [f]; }
      if newest.None? || f.Tick() > newest.value.Tick() { newest := Some(f); }
      kind := Resolve(f);
    }

    method Classify(f: Frame) returns (kind: SensorClass)
      requires Valid() && cfg.Valid()
      modifies this, future
      ensures Valid() && future == old(future)
      ensures (Value(), kind) == Classified(cfg, old(Value()), f)
    {
      hide Identity, Placed, Repeated, Discarded;
      if !f.Terminal() && f.Valid() && !f.Finite() {
        Drop(Nonfinite, f, cycle.counts.(nonfinite := cycle.counts.nonfinite + 1));
        if newest.None? || f.Tick() > newest.value.Tick() { newest := Some(f); }
        return Nonfinite;
      }
      var prior := Identify(f);
      if prior.Some? {
        var duplicate := prior.value.payload == f.payload;
        Repeat(f, duplicate);
        return if duplicate then Duplicate else Conflict;
      }
      kind := Place(f);
    }

    method CountFrame(f: Frame)
      modifies `terminals, `cycle, `lastNormal
      ensures Value() == Counted(old(Value()), f)
    {
      if f.Terminal() {
        terminals := terminals.(receivedRaw := terminals.receivedRaw + 1);
      } else {
        cycle := cycle.(counts := cycle.counts.(received := cycle.counts.received + 1));
        if lastNormal.None? || f.Tick() > lastNormal.value { lastNormal := Some(f.Tick()); }
      }
    }

    method Receive(packet: Packet) returns (kind: Option<SensorClass>)
      requires Valid()
      modifies this, future
      ensures Valid() && future == old(future)
      ensures (Value(), kind) == Received(cfg, old(Value()), packet)
    {
      hide Classified, ReadingOf, CountBad, Counted;
      if !open || cycle.rxCount >= if cycles == 0 then 9 else 8 {
        integrity := true;
        return None;
      }
      cycle := cycle.(rxCount := cycle.rxCount + 1);
      var reading := ReadingOf(packet);
      if reading.Garbled? {
        cycle := cycle.(counts := CountBad(cycle.counts, reading.error));
        integrity := true;
        return Some(Malformed);
      }
      var f := reading.frame;
      CountFrame(f);
      var class_ := Classify(f);
      kind := Some(class_);
    }

    // Closing a cycle

    method Promote()
      modifies `held, `cycle
      ensures (held, cycle) == Promoted(candidate, old(held), old(cycle))
    {
      if candidate.Some? {
        if candidate.value.Valid() {
          held := Some(candidate.value.sample);
          cycle := cycle.(admitted := held, counts := cycle.counts.(consumed := cycle.counts.consumed + 1));
        } else {
          cycle := cycle.(counts := cycle.counts.(invalid := cycle.counts.invalid + 1));
        }
      }
    }

    method LatchNotice()
      modifies `latch, `cycle
      ensures latch == (if old(latch).None? then terminalCandidate else old(latch))
      ensures cycle == Noticed(latch, old(cycle))
    {
      if latch.None? && terminalCandidate.Some? { latch := terminalCandidate; }
      if latch.Some? {
        cycle := cycle.(terminal := Some(Notice(latch.value.Tick(), latch.value.sample.reason)));
      }
    }

    method CloseCycle()
      requires open
      modifies `held, `latch, `cycle, `episode, `recorded, `cycles, `open
      ensures Value() == Finished(cfg, old(Value()))
    {
      hide Counts.Add, Staleness, Promoted, Noticed;
      Promote();
      LatchNotice();
      cycle := cycle.(staleness := Staleness(expected, held, cycles));
      Total();
    }

    method FinishCycle()
      modifies `held, `latch, `cycle, `episode, `recorded, `cycles, `open
      ensures Value() == Finished(cfg, old(Value()))
    {
      hide Promoted, Noticed, Staleness;
      if open { CloseCycle(); }
    }

    method Total()
      modifies `episode, `recorded, `cycles, `open
      ensures episode == old(episode).Add(cycle.counts) && cycles == old(cycles) + 1 && !open
      ensures recorded == if old(cycles) >= cfg.warmup then old(recorded).Add(cycle.counts) else old(recorded)
    {
      hide Counts.Add;
      episode := episode.Add(cycle.counts);
      if cycles >= cfg.warmup { recorded := recorded.Add(cycle.counts); }
      cycles := cycles + 1;
      open := false;
    }
  }

  lemma ShiftNone(cfg: Config, s: State, slots: seq<Option<Frame>>)
    requires |s.future| == SLOTS && cfg.Valid() && slots == []
    ensures Shift(cfg, s, slots) == s
  {}

  lemma ShiftNext(cfg: Config, s: State, slots: seq<Option<Frame>>, i: nat)
    requires |s.future| == SLOTS && cfg.Valid() && i < |slots|
    ensures Shift(cfg, s, slots[..i + 1]) == ShiftOne(cfg, Shift(cfg, s, slots[..i]), slots[i])
  {
    hide ShiftOne;
    assert slots[..i + 1][..i] == slots[..i];
  }
}
