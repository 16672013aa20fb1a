/** The tickets page: active and past tickets, the header count, the cancel buttons. */
module MyTickets {
  import opened Text
  import opened Seqs
  import QueueContext

  type Ticket = QueueContext.Ticket

  predicate IsActive(t: Ticket) {
    t.status == QueueContext.TicketStatus.Active
  }

  function ActiveTickets(tickets: seq<Ticket>): (r: seq<Ticket>)
    ensures forall i :: 0 <= i < |r| ==> r[i] in tickets && IsActive(r[i])
    ensures forall i :: 0 <= i < |tickets| && IsActive(tickets[i]) ==> tickets[i] in r
  {
    Filter(tickets, (t: Ticket) => IsActive(t))
  }

  function PastTickets(tickets: seq<Ticket>): (r: seq<Ticket>)
    ensures forall i :: 0 <= i < |r| ==> r[i] in tickets && !IsActive(r[i])
    ensures forall i :: 0 <= i < |tickets| && !IsActive(tickets[i]) ==> tickets[i] in r
  {
    Filter(tickets, (t: Ticket) => !IsActive(t))
  }

  /** Every ticket is in exactly one of the two lists, as often as it occurs. */
  lemma ActivePastPartition(tickets: seq<Ticket>)
    ensures multiset(ActiveTickets(tickets)) + multiset(PastTickets(tickets)) == multiset(tickets)
    ensures |ActiveTickets(tickets)| + |PastTickets(tickets)| == |tickets|
  {
    FilterPartition(tickets, (t: Ticket) => IsActive(t), (t: Ticket) => !IsActive(t));
  }

  /** Both lists keep the original order: listing a longer history lists the old part first. */
  lemma ListsKeepOrder(older: seq<Ticket>, newer: seq<Ticket>)
    ensures ActiveTickets(older + newer) == ActiveTickets(older) + ActiveTickets(newer)
    ensures PastTickets(older + newer) == PastTickets(older) + PastTickets(newer)
  {
    FilterAppend(older, newer, (t: Ticket) => IsActive(t));
    FilterAppend(older, newer, (t: Ticket) => !IsActive(t));
  }

  /** `tickets.length > activeTickets.length`: the past section is rendered. */
  predicate ShowPast(tickets: seq<Ticket>) {
    |tickets| > |ActiveTickets(tickets)|
  }

  lemma ShowPastIffSomePast(tickets: seq<Ticket>)
    ensures ShowPast(tickets) <==> exists i :: 0 <= i < |tickets| && !IsActive(tickets[i])
  {
    FilterShorter(tickets, (t: Ticket) => IsActive(t));
  }

  /** The header line under the title. */
  function HeaderLine(tickets: seq<Ticket>): string {
    var n := |ActiveTickets(tickets)|;
    Decimal(n) + " active " + (if n == 1 then "ticket" else "tickets")
  }

  /** The header is singular exactly when one ticket is active, and plural otherwise. */
  lemma HeaderSingularIffOne(tickets: seq<Ticket>)
    ensures var h := HeaderLine(tickets);
      |h| >= 7 && (h[|h| - 7..] == " ticket" <==> |ActiveTickets(tickets)| == 1)
    ensures var h := HeaderLine(tickets);
      |ActiveTickets(tickets)| != 1 ==> |h| >= 8 && h[|h| - 8..] == " tickets"
  {
    var n := |ActiveTickets(tickets)|;
    var h := HeaderLine(tickets);
    var prefix := Decimal(n) + " active ";
    if n == 1 {
      assert h == prefix + "ticket";
      assert h[|h| - 7..] == " ticket";
    } else {
      assert h == prefix + "tickets";
      assert h[|h| - 8..] == " tickets";
      assert h[|h| - 1] == 's';
    }
  }

  /** The id each active card's cancel button passes to `cancelTicket`. */
  function CancelTargets(tickets: seq<Ticket>): (ids: seq<string>)
    ensures |ids| == |ActiveTickets(tickets)|
    ensures forall i :: 0 <= i < |ids| ==> ids[i] == ActiveTickets(tickets)[i].id
  {
    var active := ActiveTickets(tickets);
    seq(|active|, i requires 0 <= i < |active| => active[i].id)
  }

  /** Pressing the i-th cancel button removes that card's ticket and no ticket with another id. */
  lemma CancelButtonRemovesItsTicket(tickets: seq<Ticket>, i: nat)
    requires i < |ActiveTickets(tickets)|
    ensures var id := CancelTargets(tickets)[i];
      var after := QueueContext.WithoutTicket(tickets, id);
      && ActiveTickets(tickets)[i] !in after
      && forall t :: t in tickets && t.id != id ==> t in after
  {
    var id := CancelTargets(tickets)[i];
    QueueContext.CancelRemovesExactly(tickets, id, []);
  }
}
