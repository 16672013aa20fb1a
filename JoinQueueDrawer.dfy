/**
 * The drawer that offers to join a location's virtual queue: the guards in
 * front of `joinQueue`, the button's disabled rule and label, and the
 * `isJoining` flag around the call.
 */
module JoinQueueDrawer {
  import opened Wrappers
  import opened DocumentStore
  import QueueContext
  import Ui

  /**
   * The message `handleJoinQueue` stops with, if any. Being at this place is
   * checked before being at some place, so a user here is told so rather than
   * asked to leave.
   */
  function JoinGuard(isAtThisLocation: bool, userLocation: Option<QueueContext.Location>): (r: Option<string>)
    ensures r.None? <==> !isAtThisLocation && userLocation.None?
    ensures isAtThisLocation ==> r == Some("You are already at this location")
    ensures !isAtThisLocation && userLocation.Some? ==>
      r == Some("Exit " + userLocation.value.name + " first before joining another queue")
  {
    if isAtThisLocation then Some("You are already at this location")
    else if userLocation.Some? then Some("Exit " + userLocation.value.name + " first before joining another queue")
    else None
  }

  /** The join button's `disabled` expression. */
  predicate ButtonDisabled(isJoining: bool, isAtThisLocation: bool, isAtAnyLocation: bool) {
    isJoining || isAtThisLocation || isAtAnyLocation
  }

  /** The join button's text. */
  function ButtonLabel(isJoining: bool, isAtThisLocation: bool, isAtAnyLocation: bool): string {
    if isJoining then "Joining..."
    else if isAtThisLocation then "You're already here"
    else if isAtAnyLocation then "Exit current location first"
    else "Join Virtual Queue"
  }

  /** The amber warning shows for a user at some other place. */
  predicate WarningShown(isAtThisLocation: bool, isAtAnyLocation: bool) {
    isAtAnyLocation && !isAtThisLocation
  }

  /**
   * The button and the handler agree: when no join is running, the button is
   * enabled exactly when the handler's guards let the call through, and then
   * it reads "Join Virtual Queue".
   */
  lemma ButtonMatchesGuard(isAtThisLocation: bool, userLocation: Option<QueueContext.Location>)
    ensures !ButtonDisabled(false, isAtThisLocation, userLocation.Some?) <==> JoinGuard(isAtThisLocation, userLocation).None?
    ensures !ButtonDisabled(false, isAtThisLocation, userLocation.Some?) <==>
            ButtonLabel(false, isAtThisLocation, userLocation.Some?) == "Join Virtual Queue"
  {
  }

  /** While a join is running the button is disabled and says so, whatever the user's place. */
  lemma JoiningDisables(isAtThisLocation: bool, isAtAnyLocation: bool)
    ensures ButtonDisabled(true, isAtThisLocation, isAtAnyLocation)
    ensures ButtonLabel(true, isAtThisLocation, isAtAnyLocation) == "Joining..."
  {
  }

  /** A label names the blocking reason exactly when the warning or the here-state applies. */
  lemma LabelReflectsPlace(isAtThisLocation: bool, isAtAnyLocation: bool)
    ensures ButtonLabel(false, isAtThisLocation, isAtAnyLocation) == "Exit current location first"
            <==> WarningShown(isAtThisLocation, isAtAnyLocation)
  {
  }

  /** `error.message || 'Failed to join queue'`. */
  function FailureMessage(message: string): (m: string)
    ensures m != ""
    ensures message != "" ==> m == message
  {
    if message != "" then message else "Failed to join queue"
  }

  class JoinDrawer {
    const queue: QueueContext.QueueProvider
    var isJoining: bool
    var open: bool
    var navigatedTo: Option<string>
    var toast: Option<Ui.Toast>

    constructor (queue: QueueContext.QueueProvider, open: bool)
      ensures this.queue == queue && !isJoining && this.open == open && navigatedTo == None && toast == None
    {
      this.queue := queue;
      isJoining, this.open, navigatedTo, toast := false, open, None, None;
    }

    /**
     * `handleJoinQueue` for the drawer's `location`. `isAtThisLocation` and
     * `userLocation` come from the queue context; `now`, `createdAt` and
     * `positionRoll` are what `joinQueue` reads from its two clock calls and the
     * random source. A drawer
     * without a location renders nothing, so nothing happens.
     */
    method HandleJoinQueue(location: Option<QueueContext.Location>, isAtThisLocation: bool,
                           userLocation: Option<QueueContext.Location>, now: Timestamp, createdAt: Timestamp,
                           positionRoll: real)
      requires queue.Valid()
      requires 0.0 <= positionRoll < 1.0
      modifies this, queue
      ensures queue.Valid()
      ensures isJoining == (old(isJoining) && (location.None? || JoinGuard(isAtThisLocation, userLocation).Some?))
      ensures queue.locations == old(queue.locations) && queue.demoMode == old(queue.demoMode)
      ensures location.None? ==>
        queue.tickets == old(queue.tickets) && open == old(open) && navigatedTo == old(navigatedTo) && toast == old(toast)
      ensures location.Some? && JoinGuard(isAtThisLocation, userLocation).Some? ==>
        && toast == Some(Ui.Alert(JoinGuard(isAtThisLocation, userLocation).value))
        && queue.tickets == old(queue.tickets) && open == old(open) && navigatedTo == old(navigatedTo)
      ensures location.Some? && JoinGuard(isAtThisLocation, userLocation).None? ==>
        var found := QueueContext.FindLocation(old(queue.locations), location.value.id);
        && (found.None? ==>
              && toast == Some(Ui.Alert("Location not found")) && queue.tickets == old(queue.tickets)
              && open == old(open) && navigatedTo == old(navigatedTo))
        && (found.Some? ==>
              && toast == Some(Ui.Notice("Joined queue successfully!"))
              && !open && navigatedTo == Some("/tickets")
              && |queue.tickets| == |old(queue.tickets)| + 1
              && queue.tickets[..|old(queue.tickets)|] == old(queue.tickets)
              && queue.tickets[|old(queue.tickets)|].locationId == location.value.id
              && queue.tickets[|old(queue.tickets)|].status == QueueContext.TicketStatus.Active)
    {
      if location.None? {
        return;
      }
      var blocked := JoinGuard(isAtThisLocation, userLocation);
      if blocked.Some? {
        toast := Some(Ui.Alert(blocked.value));
        return;
      }

      isJoining := true;
      var r := queue.JoinQueue(location.value.id, now, createdAt, positionRoll);
      if r.Success? {
        toast := Some(Ui.Notice("Joined queue successfully!"));
        open := false;
        navigatedTo := Some("/tickets");
      } else {
        toast := Some(Ui.Alert(FailureMessage(r.error)));
      }
      isJoining := false;
    }
  }
}
