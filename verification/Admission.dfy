/** Free-run admission: per cycle at most nine datagrams, one promoted sample, one latched terminal notice. */
module Admission {
  import opened Basics
  import opened Frames
  import opened Payload

  const MAX_SKEW := 64
  const SLOTS := MAX_SKEW + 1
  const DISCARDS := 9

  datatype SensorClass = Malformed | Nonfinite | Duplicate | Conflict | Old | Current | Future | ExcessiveSkew

  datatype Frame = Frame(sample: Sensor, payload: seq<byte>) {
    function Tick(): u64 { sample.tick }
    predicate Valid() { sample.flags % 2 == 1 }
    predicate Terminal() { sample.flags / 2 % 2 == 1 }
    predicate Finite() { IsFinite(sample.theta) && IsFinite(sample.omega) }
  }

  datatype Counts = Counts(received: nat, consumed: nat, aged: nat, superseded: nat, nonfinite: nat, skewExcess: nat,
                           duplicate: nat, conflict: nat, invalid: nat, futureExpired: nat, badSync: nat,
                           badVersion: nat, badType: nat, badLength: nat, badCrc: nat)
  {
    function Dispositions(): nat {
      consumed + aged + superseded + nonfinite + skewExcess + duplicate + conflict + invalid + futureExpired
    }

    function Bad(): nat { badSync + badVersion + badType + badLength + badCrc }

    predicate Closes(initial: nat, final: nat) { received + initial == Dispositions() + final }

    function Add(c: Counts): Counts {
      Counts(received + c.received, consumed + c.consumed, aged + c.aged, superseded + c.superseded,
             nonfinite + c.nonfinite, skewExcess + c.skewExcess, duplicate + c.duplicate, conflict + c.conflict,
             invalid + c.invalid, futureExpired + c.futureExpired, badSync + c.badSync, badVersion + c.badVersion,
             badType + c.badType, badLength + c.badLength, badCrc + c.badCrc)
    }
  }

  datatype TerminalCounts = TerminalCounts(receivedRaw: nat, duplicate: nat, conflict: nat, skewExcess: nat,
                                           futureExpired: nat, illegalReason: nat)

  datatype Discard = Discard(kind: SensorClass, sendNs: i64)

  datatype Notice = Notice(tick: u64, reason: u32)

  datatype Cycle = Cycle(admitted: Option<Sensor>, terminal: Option<Notice>, staleness: u32, rxCount: nat,
                         discards: seq<Discard>, counts: Counts)

  datatype Config = Config(tickBase: u64, skewMax: nat, warmup: nat) {
    predicate Valid() { skewMax <= MAX_SKEW }
  }

  datatype State = State(expected: u64, cycles: nat, warmupOccupancy: Option<nat>, lastNormal: Option<u64>, open: bool,
                         integrity: bool, future: seq<Option<Frame>>, newest: Option<Frame>, due: Option<Frame>,
                         candidate: Option<Frame>, held: Option<Sensor>, latch: Option<Frame>,
                         terminalCandidate: Option<Frame>, terminalSeen: seq<Frame>, cycle: Cycle, episode: Counts,
                         recorded: Counts, terminals: TerminalCounts)

  const NO_COUNTS := Counts(0, 0, 0, 0, 0, 0, 0, 0, 0, 0, 0, 0, 0, 0, 0)
  const NO_CYCLE := Cycle(None, None, 0, 0, [], NO_COUNTS)
  const NO_TERMINALS := TerminalCounts(0, 0, 0, 0, 0, 0)

  function EmptySlots(): (f: seq<Option<Frame>>)
    ensures |f| == SLOTS && forall i | 0 <= i < SLOTS :: f[i].None?
  {
    seq(SLOTS, _ => None)
  }

  function Initial(cfg: Config): State {
    State(0, 0, None, None, false, !cfg.Valid(), EmptySlots(), None, None, None, None, None, None, [], NO_CYCLE,
          NO_COUNTS, NO_COUNTS, NO_TERMINALS)
  }

  // Parts of a step, on the fields they touch

  function NormalParked(future: seq<Option<Frame>>): nat {
    if future == [] then 0
    else NormalParked(future[..|future| - 1])
         + var f := future[|future| - 1]; if f.Some? && !f.value.Terminal() then 1 else 0
  }

  /** The discard list takes nine entries; a tenth would be an integrity fault. */
  function Logged(c: Cycle, kind: SensorClass, f: Frame): Cycle {
    if |c.discards| == DISCARDS then c else c.(discards := c.discards + [Discard(kind, f.sample.sendNs)])
  }

  predicate Full(c: Cycle) { |c.discards| == DISCARDS }

  /** A frame offered as this cycle's candidate: the newer tick stays, and the other is superseded. */
  function Offer(candidate: Option<Frame>, c: Cycle, f: Frame): (Option<Frame>, Cycle) {
    if candidate.None? then (Some(f), c)
    else
      var counted := c.(counts := c.counts.(superseded := c.counts.superseded + 1));
      if f.Tick() > candidate.value.Tick() then (Some(f), Logged(counted, Current, candidate.value))
      else (candidate, Logged(counted, Current, f))
  }

  predicate LegalReason(r: u32) { 1 <= r <= 3 }

  function Notify(latch: Option<Frame>, candidate: Option<Frame>, f: Frame): Option<Frame> {
    if latch.None? && (candidate.None? || f.Tick() > candidate.value.Tick()) then Some(f) else candidate
  }

  function Remember(newest: Option<Frame>, f: Frame): Option<Frame> {
    if newest.None? || f.Tick() > newest.value.Tick() then Some(f) else newest
  }

  // Steps

  function Candidated(s: State, f: Frame): State {
    var (candidate, cycle) := Offer(s.candidate, s.cycle, f);
    s.(candidate := candidate, cycle := cycle, integrity := s.integrity || (s.candidate.Some? && Full(s.cycle)))
  }

  function Terminaled(s: State, f: Frame): State {
    var legal := LegalReason(f.sample.reason);
    s.(terminals := if legal then s.terminals else s.terminals.(illegalReason := s.terminals.illegalReason + 1),
       integrity := s.integrity || !legal, terminalCandidate := Notify(s.latch, s.terminalCandidate, f))
  }

  /** A frame whose tick has come: the sample competes, or the notice does. */
  function Presented(s: State, f: Frame): State {
    if f.Terminal() then Terminaled(s, f) else Candidated(s, f)
  }

  function Expired(s: State, f: Frame): State {
    if f.Terminal() then
      s.(integrity := true, terminals := s.terminals.(futureExpired := s.terminals.futureExpired + 1))
    else
      s.(integrity := true,
         cycle := s.cycle.(counts := s.cycle.counts.(futureExpired := s.cycle.counts.futureExpired + 1)))
  }

  /** One slot of the old array, at a new expected tick. */
  function ShiftOne(cfg: Config, s: State, slot: Option<Frame>): (t: State)
    requires |s.future| == SLOTS && cfg.Valid()
    ensures |t.future| == SLOTS
  {
    if slot.None? then s
    else
      var f := slot.value;
      if f.Tick() < s.expected then Expired(s, f)
      else if f.Tick() == s.expected then Presented(s.(due := Some(f)), f)
      else if f.Tick() - s.expected > cfg.skewMax then Expired(s, f)
      else s.(future := s.future[f.Tick() - s.expected - 1 := Some(f)])
  }

  function Shift(cfg: Config, s: State, slots: seq<Option<Frame>>): (t: State)
    requires |s.future| == SLOTS && cfg.Valid()
    ensures |t.future| == SLOTS
    decreases |slots|
  {
    if slots == [] then s
    else ShiftOne(cfg, Shift(cfg, s, slots[..|slots| - 1]), slots[|slots| - 1])
  }

  predicate CanBegin(cfg: Config, s: State, expected: u64) {
    cfg.Valid() && !s.open && if s.cycles == 0 then expected == cfg.tickBase else expected > s.expected
  }

  function Opened(cfg: Config, s: State, expected: u64): State {
    s.(integrity := s.integrity || (s.cycles != 0 && expected != s.expected + 1),
       warmupOccupancy := if s.cycles == cfg.warmup then Some(NormalParked(s.future)) else s.warmupOccupancy,
       expected := expected, open := true, cycle := NO_CYCLE, candidate := None, due := None, terminalCandidate := None,
       terminalSeen := [], future := EmptySlots())
  }

  function BeginCycle(cfg: Config, s: State, expected: u64): (t: State)
    requires |s.future| == SLOTS
    ensures |t.future| == SLOTS
  {
    if CanBegin(cfg, s, expected) then Shift(cfg, Opened(cfg, s, expected), s.future) else s.(integrity := true)
  }

  function SlotWith(slots: seq<Option<Frame>>, tick: u64): Option<Frame> {
    if slots == [] then None
    else if slots[0].Some? && slots[0].value.Tick() == tick then slots[0]
    else SlotWith(slots[1..], tick)
  }

  function SeenWith(seen: seq<Frame>, tick: u64): Option<Frame> {
    if seen == [] then None
    else if seen[0].Tick() == tick then Some(seen[0])
    else SeenWith(seen[1..], tick)
  }

  predicate At(f: Option<Frame>, tick: u64) { f.Some? && f.value.Tick() == tick }

  /** The frame already known under the incoming frame's tick. */
  function Identity(s: State, f: Frame): Option<Frame> {
    var tick := f.Tick();
    if At(s.newest, tick) then s.newest
    else if At(s.due, tick) then s.due
    else if SlotWith(s.future, tick).Some? then SlotWith(s.future, tick)
    else if At(s.terminalCandidate, tick) then s.terminalCandidate
    else if At(s.latch, tick) then s.latch
    else if SeenWith(s.terminalSeen, tick).Some? then SeenWith(s.terminalSeen, tick)
    else if f.Terminal() && At(s.candidate, tick) then s.candidate
    else None
  }

  function CountBad(c: Counts, e: DatagramError): Counts {
    match e
    case BadSync => c.(badSync := c.badSync + 1)
    case BadVersion => c.(badVersion := c.badVersion + 1)
    case BadType => c.(badType := c.badType + 1)
    case BadLength => c.(badLength := c.badLength + 1)
    case BadCrc => c.(badCrc := c.badCrc + 1)
  }

  datatype Packet = Packet(bytes: seq<byte>, truncated: bool)

  /** A datagram read as a sensor frame, or the reason it is malformed. */
  datatype Reading = Sensed(frame: Frame) | Garbled(error: DatagramError)

  function ReadingOf(packet: Packet): Reading {
    if packet.truncated then Garbled(BadLength)
    else
      var d := DecodeDatagram(packet.bytes, {SENSOR});
      if d.Bad? then Garbled(d.error)
      else
        EncodeInvertsDecode(packet.bytes, {SENSOR});
        Sensed(Frame(DecodeSensor(d.payload), d.payload))
  }

  predicate CanReceive(s: State) { s.open && s.cycle.rxCount < if s.cycles == 0 then 9 else 8 }

  function WithCounts(s: State, c: Counts): State { s.(cycle := s.cycle.(counts := c)) }

  function Counted(s: State, f: Frame): State {
    if f.Terminal() then s.(terminals := s.terminals.(receivedRaw := s.terminals.receivedRaw + 1))
    else
      WithCounts(s, s.cycle.counts.(received := s.cycle.counts.received + 1)).(
        lastNormal := if s.lastNormal.None? || f.Tick() > s.lastNormal.value then Some(f.Tick()) else s.lastNormal)
  }

  function Discarded(s: State, kind: SensorClass, f: Frame): State {
    s.(cycle := Logged(s.cycle, kind, f), integrity := s.integrity || Full(s.cycle))
  }

  /** A frame under a known tick: a duplicate if it repeats the payload, else a conflict. */
  function Repeated(s: State, f: Frame, same: bool): State {
    var c, t := s.cycle.counts, s.terminals;
    if f.Terminal() && same then
      var n := s.(terminals := t.(duplicate := t.duplicate + 1), terminalSeen := s.terminalSeen + [f]);
      if f.Tick() <= s.expected then Terminaled(n, f) else n
    else if f.Terminal() then s.(terminals := t.(conflict := t.conflict + 1), integrity := true)
    else if same then WithCounts(s, c.(duplicate := c.duplicate + 1))
    else WithCounts(s, c.(conflict := c.conflict + 1)).(integrity := true)
  }

  /** A frame with a new identity, once remembered. */
  function Resolved(cfg: Config, s: State, f: Frame): (State, SensorClass)
    requires |s.future| == SLOTS && cfg.Valid()
  {
    var c := s.cycle.counts;
    if !f.Terminal() && s.held.Some? && f.Tick() <= s.held.value.tick then
      (Discarded(WithCounts(s, c.(aged := c.aged + 1)), Old, f), Old)
    else if f.Tick() <= s.expected then (Presented(s, f), Current)
    else if f.Tick() - s.expected <= cfg.skewMax then
      (s.(future := s.future[f.Tick() - s.expected - 1 := Some(f)]), Future)
    else if f.Terminal() then
      (s.(terminals := s.terminals.(skewExcess := s.terminals.skewExcess + 1), integrity := true), ExcessiveSkew)
    else
      (Discarded(WithCounts(s, c.(skewExcess := c.skewExcess + 1)), ExcessiveSkew, f).(integrity := true),
       ExcessiveSkew)
  }

  /** A frame with a new identity. */
  function Placed(cfg: Config, s: State, f: Frame): (State, SensorClass)
    requires |s.future| == SLOTS && cfg.Valid()
  {
    Resolved(cfg, s.(terminalSeen := if f.Terminal() then s.terminalSeen + [f] else s.terminalSeen,
                     newest := Remember(s.newest, f)), f)
  }

  function Classified(cfg: Config, s: State, f: Frame): (State, SensorClass)
    requires |s.future| == SLOTS && cfg.Valid()
  {
    if !f.Terminal() && f.Valid() && !f.Finite() then
      var c := s.cycle.counts;
      (Discarded(WithCounts(s, c.(nonfinite := c.nonfinite + 1)), Nonfinite, f).(newest := Remember(s.newest, f)),
       Nonfinite)
    else
      var prior := Identity(s, f);
      if prior.Some? then
        var same := prior.value.payload == f.payload;
        (Repeated(s, f, same), if same then Duplicate else Conflict)
      else Placed(cfg, s, f)
  }

  function Received(cfg: Config, s0: State, packet: Packet): (State, Option<SensorClass>)
    requires |s0.future| == SLOTS && (s0.open ==> cfg.Valid())
  {
    if !CanReceive(s0) then (s0.(integrity := true), None)
    else
      var s := s0.(cycle := s0.cycle.(rxCount := s0.cycle.rxCount + 1));
      match ReadingOf(packet)
      case Garbled(e) => (WithCounts(s, CountBad(s.cycle.counts, e)).(integrity := true), Some(Malformed))
      case Sensed(f) =>
        var (t, kind) := Classified(cfg, Counted(s, f), f);
        (t, Some(kind))
  }

  function Staleness(expected: u64, held: Option<Sensor>, cycles: nat): (age: u32) {
    Min(if held.Some? then (expected - held.value.tick) % TWO64 else cycles + 1, MAX32)
  }

  /** The cycle's candidate becomes the held sample, or is counted invalid. */
  function Promoted(candidate: Option<Frame>, held: Option<Sensor>, c: Cycle): (Option<Sensor>, Cycle) {
    if candidate.None? then (held, c)
    else if candidate.value.Valid() then
      (Some(candidate.value.sample),
       c.(admitted := Some(candidate.value.sample), counts := c.counts.(consumed := c.counts.consumed + 1)))
    else (held, c.(counts := c.counts.(invalid := c.counts.invalid + 1)))
  }

  function Noticed(latch: Option<Frame>, c: Cycle): Cycle {
    if latch.None? then c else c.(terminal := Some(Notice(latch.value.Tick(), latch.value.sample.reason)))
  }

  function Finished(cfg: Config, s: State): State {
    if !s.open then s
    else
      var (held, promoted) := Promoted(s.candidate, s.held, s.cycle);
      var latch := if s.latch.None? then s.terminalCandidate else s.latch;
      var cycle := Noticed(latch, promoted).(staleness := Staleness(s.expected, held, s.cycles));
      s.(held := held, latch := latch, cycle := cycle, episode := s.episode.Add(cycle.counts),
         recorded := if s.cycles >= cfg.warmup then s.recorded.Add(cycle.counts) else s.recorded,
         cycles := s.cycles + 1, open := false)
  }

  predicate IdentitiesHold(cfg: Config, s: State) {
    !s.open && s.episode.Closes(0, NormalParked(s.future))
    && (s.cycles <= cfg.warmup
        || (s.warmupOccupancy.Some? && s.recorded.Closes(s.warmupOccupancy.value, NormalParked(s.future))))
  }
}
