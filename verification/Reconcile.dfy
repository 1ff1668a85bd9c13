/** The counter equations an offline audit demands of each sender and receiver. */
module Reconcile {

  datatype SendCounts = SendCounts(generated: int, originalAttempts: int, retryAttempts: int, notAttempted: int,
                                   sendAttempts: int, sendPending: int, txFail: int, transmitted: int,
                                   firstTransmitted: int, additionalCopies: int, neverTransmitted: int)
  {
    predicate Natural() {
      && 0 <= generated && 0 <= originalAttempts && 0 <= retryAttempts && 0 <= notAttempted && 0 <= sendAttempts
      && 0 <= sendPending && 0 <= txFail && 0 <= transmitted && 0 <= firstTransmitted && 0 <= additionalCopies
      && 0 <= neverTransmitted
    }
  }

  const NOTHING_SENT := SendCounts(0, 0, 0, 0, 0, 0, 0, 0, 0, 0, 0)

  /** What both receivers count; `parts` are the dispositions of logical receipts, which differ by side. */
  datatype ReceiveCounts = ReceiveCounts(receivedRaw: int, malformed: int, received: int, decodePending: int,
                                         logicalReceived: int, discardedDuplicate: int, rejectedReceived: int,
                                         classificationPending: int, parts: seq<int>)
  {
    predicate Natural() {
      && 0 <= receivedRaw && 0 <= malformed && 0 <= received && 0 <= decodePending && 0 <= logicalReceived
      && 0 <= discardedDuplicate && 0 <= rejectedReceived && 0 <= classificationPending
      && forall p <- parts :: 0 <= p
    }
  }

  function Sum(xs: seq<int>): int { if xs == [] then 0 else xs[0] + Sum(xs[1..]) }

  function Check(name: string, left: int, right: int): seq<string> { if left != right then [name] else [] }

  function SenderErrors(c: SendCounts): seq<string> {
    if !c.Natural() then ["missing or invalid sender counter"] else
      Check("generation", c.generated, c.originalAttempts + c.notAttempted) +
      Check("attempts", c.sendAttempts, c.originalAttempts + c.retryAttempts) +
      Check("send outcomes", c.sendAttempts, c.txFail + c.transmitted + c.sendPending) +
      Check("successful copies", c.transmitted, c.firstTransmitted + c.additionalCopies) +
      Check("first success", c.generated, c.firstTransmitted + c.neverTransmitted)
  }

  method ReceiverErrors(c: ReceiveCounts) returns (errors: seq<string>)
    ensures errors == [] <==> ReceiverBalanced(c)
  {
    if !c.Natural() { return ["missing or invalid receiver counter"]; }
    errors := [];
    if c.receivedRaw != c.malformed + c.received + c.decodePending { errors := errors + ["raw receipt"]; }
    if c.received != c.logicalReceived + c.discardedDuplicate + c.rejectedReceived + c.classificationPending {
      errors := errors + ["receipt disposition"];
    }
    if c.logicalReceived != Sum(c.parts) { errors := errors + ["logical disposition"]; }
  }

  predicate ReceiverBalanced(c: ReceiveCounts) {
    && c.Natural()
    && c.receivedRaw == c.malformed + c.received + c.decodePending
    && c.received == c.logicalReceived + c.discardedDuplicate + c.rejectedReceived + c.classificationPending
    && c.logicalReceived == Sum(c.parts)
  }

  predicate SenderBalanced(c: SendCounts) {
    && c.Natural()
    && c.generated == c.originalAttempts + c.notAttempted
    && c.sendAttempts == c.originalAttempts + c.retryAttempts
    && c.sendAttempts == c.txFail + c.transmitted + c.sendPending
    && c.transmitted == c.firstTransmitted + c.additionalCopies
    && c.generated == c.firstTransmitted + c.neverTransmitted
  }

  lemma BalancedHasNoErrors(c: SendCounts)
    ensures SenderErrors(c) == [] <==> SenderBalanced(c)
  {
    var a := Check("generation", c.generated, c.originalAttempts + c.notAttempted);
    var b := Check("attempts", c.sendAttempts, c.originalAttempts + c.retryAttempts);
    var d := Check("send outcomes", c.sendAttempts, c.txFail + c.transmitted + c.sendPending);
    var e := Check("successful copies", c.transmitted, c.firstTransmitted + c.additionalCopies);
    var f := Check("first success", c.generated, c.firstTransmitted + c.neverTransmitted);
    assert |a + b + d + e + f| == |a| + |b| + |d| + |e| + |f|;
  }

  // The steps of a sender, shared by the simulator and the vehicle

  function Generate(c: SendCounts): SendCounts {
    c.(generated := c.generated + 1, notAttempted := c.notAttempted + 1, neverTransmitted := c.neverTransmitted + 1)
  }

  function BeginSend(c: SendCounts, original: bool): SendCounts {
    var d := c.(sendAttempts := c.sendAttempts + 1, sendPending := c.sendPending + 1);
    if original then d.(originalAttempts := d.originalAttempts + 1, notAttempted := d.notAttempted - 1)
    else d.(retryAttempts := d.retryAttempts + 1)
  }

  /** `again` says that an earlier copy of this message already went out. */
  function FinishSend(c: SendCounts, again: bool, success: bool): SendCounts {
    var d := c.(sendPending := c.sendPending - 1);
    if !success then d.(txFail := d.txFail + 1)
    else if again then d.(transmitted := d.transmitted + 1, additionalCopies := d.additionalCopies + 1)
    else d.(transmitted := d.transmitted + 1, firstTransmitted := d.firstTransmitted + 1,
            neverTransmitted := d.neverTransmitted - 1)
  }

  // Every step keeps the sender's equations, as long as no message is attempted first twice and none succeeds
  // for the first time twice.

  lemma GenerateBalances(c: SendCounts)
    requires SenderBalanced(c)
    ensures SenderBalanced(Generate(c))
  {}

  lemma BeginBalances(c: SendCounts, original: bool)
    requires SenderBalanced(c) && (original ==> c.notAttempted >= 1)
    ensures SenderBalanced(BeginSend(c, original))
  {}

  lemma FinishBalances(c: SendCounts, again: bool, success: bool)
    requires SenderBalanced(c) && c.sendPending >= 1 && (success && !again ==> c.neverTransmitted >= 1)
    ensures SenderBalanced(FinishSend(c, again, success))
  {}

  lemma SumParts(a: int, b: int, c: int, d: int)
    ensures Sum([a, b, c]) == a + b + c && Sum([a, b, c, d]) == a + b + c + d
  {
    assert [a, b, c][1..] == [b, c] && [b, c][1..] == [c] && [c][1..] == [];
    assert [a, b, c, d][1..] == [b, c, d] && [b, c, d][1..] == [c, d] && [c, d][1..] == [d] && [d][1..] == [];
    assert Sum([c]) == c && Sum([d]) == d;
    assert Sum([b, c]) == b + c && Sum([c, d]) == c + d;
    assert Sum([b, c, d]) == b + c + d;
  }
}
