/** The single-producer single-consumer ring: the object, and every interleaving of its atomic steps. */
module Ring {
  import opened Basics

  const SLOTS := 4096

  /** A pushed value with the drop count its producer stamped on it. */
  datatype Entry<T> = Entry(value: T, drops: nat)

  // The object, one call at a time

  class SpscRing<T(0)> {
    var slots: array<T>
    var head: nat
    var tail: nat
    var cachedTail: nat
    var drops: nat

    ghost predicate Valid()
      reads this
    {
      slots.Length == SLOTS && cachedTail <= tail <= head <= cachedTail + SLOTS
    }

    /** What has been pushed and not yet popped, oldest first. */
    ghost function Contents(): (s: seq<T>)
      reads this, slots
      requires Valid()
      ensures |s| == head - tail
    {
      seq(head - tail, i requires 0 <= i < head - tail reads this, slots requires Valid() => slots[(tail + i) % SLOTS])
    }

    constructor ()
      ensures Valid() && fresh(slots) && Contents() == [] && drops == 0
    {
      slots := new T[SLOTS];
      head, tail, cachedTail, drops := 0, 0, 0, 0;
    }

    /** A push is refused exactly when the ring is full; a refusal is counted and changes nothing else. */
    method TryPush(r: T) returns (ok: bool)
      requires Valid()
      modifies `head, `cachedTail, `drops, slots
      ensures Valid() && tail == old(tail)
      ensures ok <==> |old(Contents())| < SLOTS
      ensures Contents() == if ok then old(Contents()) + [r] else old(Contents())
      ensures drops == old(drops) + if ok then 0 else 1
    {
      if head - cachedTail == SLOTS {
        cachedTail := tail;
        if head - cachedTail == SLOTS {
          drops := drops + 1;
          return false;
        }
      }
      Store(r);
      return true;
    }

    /** Fills the slot after the newest entry and publishes it. */
    method Store(r: T)
      requires Valid() && head < cachedTail + SLOTS
      modifies `head, slots
      ensures Valid() && Contents() == old(Contents()) + [r]
    {
      ghost var before := Contents();
      OthersKept(tail, head);
      slots[head % SLOTS] := r;
      head := head + 1;
      assert forall k | 0 <= k < |before| :: before[k] == slots[(tail + k) % SLOTS];
    }

    /** Pops the oldest entries, as many as there are and fit. */
    method PopBatch(out: array<T>, max: nat) returns (n: nat)
      requires Valid() && max <= out.Length && out != slots
      modifies `tail, out
      ensures Valid() && head == old(head) && drops == old(drops)
      ensures n == Min(max, |old(Contents())|)
      ensures out[..n] == old(Contents())[..n] && forall k | n <= k < out.Length :: out[k] == old(out[k])
      ensures Contents() == old(Contents())[n..]
    {
      ghost var all := Contents();
      var h, t := head, tail;
      n := 0;
      while t != h && n < max
        invariant tail <= t <= h == head && n == t - tail <= max && n <= |all| && Valid()
        invariant out[..n] == all[..n] && forall k | n <= k < out.Length :: out[k] == old(out[k])
        invariant Contents() == all
        decreases h - t
      {
        assert slots[t % SLOTS] == all[n];
        out[n] := slots[t % SLOTS];
        n, t := n + 1, t + 1;
      }
      tail := t;
    }
  }

  /** Two indices less than a ring apart use different slots. */
  lemma DistinctSlots(a: nat, b: nat)
    requires a < b < a + SLOTS
    ensures a % SLOTS != b % SLOTS
  {
    var q := b / SLOTS - a / SLOTS;
    assert b - a == SLOTS * q + (b % SLOTS - a % SLOTS);
  }

  /** The slot after the newest entry is none of the unread ones. */
  lemma OthersKept(tail: nat, head: nat)
    requires tail <= head < tail + SLOTS
    ensures forall k | tail <= k < head :: k % SLOTS != head % SLOTS
  {
    forall k | tail <= k < head
      ensures k % SLOTS != head % SLOTS
    {
      DistinctSlots(k, head);
    }
  }

  // Every interleaving

  datatype Producer<T> =
    | Resting
    | Checking(entry: Entry<T>)
    | Ready(entry: Entry<T>)
    | Writing(entry: Entry<T>)
    | Publishing(entry: Entry<T>)

  datatype Consumer<T> =
    | Waiting
    | Loaded(head: nat, max: nat)
    | Copying(head: nat, max: nat, tail: nat, out: seq<Entry<T>>)

  /** `slots` holds nothing where a slot was never written or is being overwritten; `attempts` is the log of completed
      pushes, refused ones as `None`; `popped` is everything the consumer has taken. */
  datatype Shared<T> = Shared(slots: seq<Option<Entry<T>>>, head: nat, tail: nat, cachedTail: nat, drops: nat,
                              producer: Producer<T>, consumer: Consumer<T>, attempts: seq<Option<Entry<T>>>,
                              popped: seq<Entry<T>>, torn: bool)

  /** Starting a call, or letting a started one take its next atomic step. */
  datatype Step<T> = Push(value: T) | Produce | Pop(max: nat) | Consume

  function Empty<T>(): Shared<T> {
    Shared(seq(SLOTS, _ => None), 0, 0, 0, 0, Resting, Waiting, [], [], false)
  }

  /** `try_push`: the full check on the cached tail, the load of the tail with the decision on it, the slot write (not
      atomic: the slot is torn from its start to its end), the publication of the head. */
  function Produces<T>(s: Shared<T>): (t: Shared<T>)
    requires |s.slots| == SLOTS
    ensures |t.slots| == SLOTS
  {
    match s.producer
    case Resting => s
    case Checking(e) =>
      if s.head - s.tail == SLOTS then
        s.(cachedTail := s.tail, drops := s.drops + 1, producer := Resting, attempts := s.attempts + [None])
      else s.(cachedTail := s.tail, producer := Ready(e))
    case Ready(e) => s.(producer := Writing(e), slots := s.slots[s.head % SLOTS := None])
    case Writing(e) => s.(producer := Publishing(e), slots := s.slots[s.head % SLOTS := Some(e)])
    case Publishing(e) => s.(head := s.head + 1, producer := Resting, attempts := s.attempts + [Some(e)])
  }

  /** `pop_batch`: the load of the head, one copy per slot, the publication of the tail. */
  function Consumes<T>(s: Shared<T>): (t: Shared<T>)
    requires |s.slots| == SLOTS
    ensures |t.slots| == SLOTS
  {
    match s.consumer
    case Waiting => s
    case Loaded(h, max) => s.(consumer := Copying(h, max, s.tail, []))
    case Copying(h, max, t, out) =>
      if t != h && |out| < max then
        var slot := s.slots[t % SLOTS];
        if slot.None? then s.(torn := true) else s.(consumer := Copying(h, max, t + 1, out + [slot.value]))
      else s.(tail := t, popped := s.popped + out, consumer := Waiting)
  }

  function Advance<T>(s: Shared<T>, step: Step<T>): (t: Shared<T>)
    requires |s.slots| == SLOTS
    ensures |t.slots| == SLOTS
  {
    match step
    case Push(v) =>
      if !s.producer.Resting? then s
      else if s.head - s.cachedTail == SLOTS then s.(producer := Checking(Entry(v, s.drops)))
      else s.(producer := Ready(Entry(v, s.drops)))
    case Produce => Produces(s)
    case Pop(max) => if s.consumer.Waiting? then s.(consumer := Loaded(s.head, max)) else s
    case Consume => Consumes(s)
  }

  function After<T>(steps: seq<Step<T>>): (s: Shared<T>)
    ensures |s.slots| == SLOTS
    decreases |steps|
  {
    if steps == [] then Empty() else Advance(After(steps[..|steps| - 1]), steps[|steps| - 1])
  }

  // The logs

  function Accepted<T>(attempts: seq<Option<Entry<T>>>): seq<Entry<T>>
    decreases |attempts|
  {
    if attempts == [] then []
    else
      var a := attempts[|attempts| - 1];
      Accepted(attempts[..|attempts| - 1]) + if a.Some? then [a.value] else []
  }

  function Refused<T>(attempts: seq<Option<Entry<T>>>): nat
    decreases |attempts|
  {
    if attempts == [] then 0
    else Refused(attempts[..|attempts| - 1]) + if attempts[|attempts| - 1].None? then 1 else 0
  }

  lemma LogNext<T>(attempts: seq<Option<Entry<T>>>, a: Option<Entry<T>>)
    ensures Accepted(attempts + [a]) == Accepted(attempts) + (if a.Some? then [a.value] else [])
    ensures Refused(attempts + [a]) == Refused(attempts) + if a.None? then 1 else 0
  {
    assert (attempts + [a])[..|attempts|] == attempts;
  }

  /** Every accepted entry carries the number of refusals before it. */
  predicate Stamped<T>(attempts: seq<Option<Entry<T>>>) {
    forall i | 0 <= i < |attempts| && attempts[i].Some? :: attempts[i].value.drops == Refused(attempts[..i])
  }

  lemma StampedNext<T>(attempts: seq<Option<Entry<T>>>, a: Option<Entry<T>>)
    requires Stamped(attempts) && (a.Some? ==> a.value.drops == Refused(attempts))
    ensures Stamped(attempts + [a])
  {
    hide Refused;
    var all := attempts + [a];
    forall i | 0 <= i < |all| && all[i].Some?
      ensures all[i].value.drops == Refused(all[..i])
    {
      assert all[..i] == attempts[..i];
      if i == |attempts| {
        assert attempts[..i] == attempts;
      }
    }
  }

  // The invariant

  ghost predicate Indexed<T>(s: Shared<T>) {
    && |s.slots| == SLOTS && s.cachedTail <= s.tail <= s.head <= s.cachedTail + SLOTS
    && (s.producer.Ready? || s.producer.Writing? || s.producer.Publishing? ==> s.head < s.cachedTail + SLOTS)
    && (s.producer.Publishing? ==> s.slots[s.head % SLOTS] == Some(s.producer.entry))
    && (!s.producer.Resting? ==> s.producer.entry.drops == s.drops)
    && (s.consumer.Loaded? ==> s.tail <= s.consumer.head <= s.head)
  }

  ghost predicate Logged<T>(s: Shared<T>) {
    && |Accepted(s.attempts)| == s.head && Refused(s.attempts) == s.drops && Stamped(s.attempts)
    && s.popped == Accepted(s.attempts)[..Min(s.tail, s.head)]
  }

  /** Unread slots hold the accepted entries, whole. */
  ghost predicate Stored<T>(s: Shared<T>)
    requires |s.slots| == SLOTS && |Accepted(s.attempts)| == s.head
  {
    forall k | s.tail <= k < s.head :: s.slots[k % SLOTS] == Some(Accepted(s.attempts)[k])
  }

  ghost predicate Copied<T>(s: Shared<T>)
    requires |Accepted(s.attempts)| == s.head
  {
    s.consumer.Copying? ==>
      && s.tail <= s.consumer.tail <= s.consumer.head <= s.head && |s.consumer.out| == s.consumer.tail - s.tail
      && s.consumer.out == Accepted(s.attempts)[s.tail..s.consumer.tail]
  }

  ghost predicate Linear<T>(s: Shared<T>) { Indexed(s) && Logged(s) && Stored(s) && Copied(s) && !s.torn }

  lemma EmptyLinear<T>(s: Shared<T>)
    requires s == Empty()
    ensures Linear(s)
  {}

  /** The slot being written is not one the consumer may still read. */
  lemma WriteKeeps<T>(s: Shared<T>, slot: Option<Entry<T>>, p: Producer<T>)
    requires Linear(s) && s.head < s.cachedTail + SLOTS
    requires p.Writing? || (p.Publishing? && slot == Some(p.entry))
    requires p.entry.drops == s.drops
    ensures Linear(s.(slots := s.slots[s.head % SLOTS := slot], producer := p))
  {
    hide Accepted, Refused, Stamped;
    OthersKept(s.tail, s.head);
  }

  /** A call that has room may write, whether the cached tail or a fresh one says so. */
  lemma ReadyKeeps<T>(s: Shared<T>, e: Entry<T>, cached: nat)
    requires Linear(s) && s.cachedTail <= cached <= s.tail && s.head < cached + SLOTS && e.drops == s.drops
    ensures Linear(s.(producer := Ready(e), cachedTail := cached))
  {
    hide Accepted, Refused, Stamped;
  }

  lemma PublishKeeps<T>(s: Shared<T>)
    requires Linear(s) && s.producer.Publishing?
    ensures Linear(Produces(s))
  {
    hide Accepted, Refused, Stamped;
    LogNext(s.attempts, Some(s.producer.entry));
    StampedNext(s.attempts, Some(s.producer.entry));
  }

  lemma RefuseKeeps<T>(s: Shared<T>)
    requires Linear(s) && s.producer.Checking? && s.head - s.tail == SLOTS
    ensures Linear(Produces(s))
  {
    hide Accepted, Refused, Stamped;
    LogNext<T>(s.attempts, None);
    StampedNext<T>(s.attempts, None);
  }

  lemma ConsumeKeeps<T>(s: Shared<T>)
    requires Linear(s)
    ensures Linear(Consumes(s))
  {
    hide Accepted, Refused, Stamped;
    if s.consumer.Copying? {
      var c, all := s.consumer, Accepted(s.attempts);
      if c.tail != c.head && |c.out| < c.max {
        assert all[s.tail..c.tail + 1] == all[s.tail..c.tail] + [all[c.tail]];
      } else {
        assert all[..s.tail] + all[s.tail..c.tail] == all[..c.tail];
      }
    }
  }

  lemma AdvanceKeeps<T>(s: Shared<T>, step: Step<T>)
    requires Linear(s)
    ensures Linear(Advance(s, step))
  {
    hide Accepted, Refused, Stamped, Stored, Copied, Logged;
    match step {
      case Push(v) =>
        if s.producer.Resting? {
          if s.head - s.cachedTail == SLOTS {
            StartKeeps(s, v);
          } else {
            ReadyKeeps(s, Entry(v, s.drops), s.cachedTail);
          }
        }
      case Produce =>
        match s.producer {
          case Resting =>
          case Checking(e) =>
            if s.head - s.tail == SLOTS { RefuseKeeps(s); } else { ReadyKeeps(s, e, s.tail); }
          case Ready(e) => WriteKeeps(s, None, Writing(e));
          case Writing(e) => WriteKeeps(s, Some(e), Publishing(e));
          case Publishing(e) => PublishKeeps(s);
        }
      case Pop(max) => PopKeeps(s, max);
      case Consume => ConsumeKeeps(s);
    }
  }

  lemma StartKeeps<T>(s: Shared<T>, v: T)
    requires Linear(s)
    ensures Linear(s.(producer := Checking(Entry(v, s.drops))))
  {
    hide Accepted, Refused, Stamped;
  }

  lemma PopKeeps<T>(s: Shared<T>, max: nat)
    requires Linear(s)
    ensures Linear(Advance(s, Pop(max)))
  {
    hide Accepted, Refused, Stamped;
  }

  /** Every interleaving keeps the ring linear: the popped sequence is a prefix of the accepted one, no unread slot is
      overwritten and no torn slot is read, and each entry carries the refusals before it. */
  lemma {:induction false} EveryInterleaving<T>(steps: seq<Step<T>>)
    ensures Linear(After(steps))
    decreases |steps|
  {
    hide Linear, Advance, Empty;
    if steps == [] {
      EmptyLinear(After<T>(steps));
    } else {
      EveryInterleaving(steps[..|steps| - 1]);
      AdvanceKeeps(After(steps[..|steps| - 1]), steps[|steps| - 1]);
    }
  }

  lemma {:induction false} LogsAddUp<T>(attempts: seq<Option<Entry<T>>>)
    ensures |Accepted(attempts)| + Refused(attempts) == |attempts|
    decreases |attempts|
  {
    if attempts != [] {
      LogsAddUp(attempts[..|attempts| - 1]);
    }
  }

  /** A step ends at most one attempt, and a refused one ends at the load that finds the ring full. */
  lemma AttemptEnds<T>(s: Shared<T>, step: Step<T>)
    requires |s.slots| == SLOTS
    ensures var t := Advance(s, step);
            || t.attempts == s.attempts
            || (s.producer.Checking? && s.head == s.tail + SLOTS && t.attempts == s.attempts + [None])
            || (s.producer.Publishing? && t.attempts == s.attempts + [Some(s.producer.entry)])
  {}

  /** Every refused attempt in the log was logged in a state in which the ring was full: a moment of the run at which
      the attempts before it, and no others, were over, and the tail just loaded was a whole ring behind the head. */
  lemma {:induction false} RefusedWhenFull<T>(steps: seq<Step<T>>, j: nat) returns (i: nat)
    requires j < |After(steps).attempts| && After(steps).attempts[j].None?
    ensures i < |steps| && After(steps[..i]).attempts == After(steps).attempts[..j]
    ensures var s := After(steps[..i]);
            && s.producer.Checking? && s.head == s.tail + SLOTS && After(steps[..i + 1]).drops == s.drops + 1
    decreases |steps|
  {
    hide Advance, Empty;
    if steps == [] {
      NothingAttempted<T>(Empty());
    } else {
      var n := |steps| - 1;
      var s := After(steps[..n]);
      AttemptEnds(s, steps[n]);
      if j < |s.attempts| {
        i := RefusedWhenFull(steps[..n], j);
        assert steps[..n][..i] == steps[..i] && steps[..n][..i + 1] == steps[..i + 1];
      } else {
        i := n;
        assert steps[..i + 1] == steps;
        EveryInterleaving(steps);
        EveryInterleaving(steps[..n]);
        DropsLogged(s);
        DropsLogged(After(steps));
        LogNext(s.attempts, After(steps).attempts[j]);
      }
    }
  }

  lemma NothingAttempted<T>(s: Shared<T>)
    requires s == Empty()
    ensures s.attempts == []
  {}

  lemma DropsLogged<T>(s: Shared<T>)
    requires Linear(s)
    ensures Refused(s.attempts) == s.drops
  {
    hide Accepted, Refused, Stamped, Stored, Copied;
  }

  /** What the two threads can rely on in any state they can reach. */
  lemma RingIsLinear<T>(steps: seq<Step<T>>)
    ensures var s := After(steps);
            && s.tail <= s.head <= s.tail + SLOTS && s.cachedTail <= s.tail && !s.torn
            && s.popped <= Accepted(s.attempts) && |s.popped| == s.tail && |Accepted(s.attempts)| == s.head
            && |Accepted(s.attempts)| + s.drops == |s.attempts| && Stamped(s.attempts)
            && (s.producer.Writing? || s.producer.Publishing? ==> s.head < s.tail + SLOTS)
    ensures forall j | 0 <= j < |After(steps).attempts| && After(steps).attempts[j].None? ::
              exists i :: 0 <= i < |steps| && FullAt(steps, i, j)
  {
    hide After, Accepted, Refused, Stamped, Stored, Copied;
    EveryInterleaving(steps);
    LogsAddUp(After(steps).attempts);
    forall j | 0 <= j < |After(steps).attempts| && After(steps).attempts[j].None?
      ensures exists i :: 0 <= i < |steps| && FullAt(steps, i, j)
    {
      var i := RefusedWhenFull(steps, j);
      assert FullAt(steps, i, j);
    }
  }

  /** Before step `i` exactly `j` attempts were over and the ring was full. */
  predicate FullAt<T>(steps: seq<Step<T>>, i: nat, j: nat)
    requires i <= |steps|
  {
    var s := After(steps[..i]);
    |s.attempts| == j && s.producer.Checking? && s.head == s.tail + SLOTS
  }
}
