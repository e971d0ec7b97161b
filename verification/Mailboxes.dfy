/** The two one-slot mailboxes between the GUI thread and the analytics worker. */
module Mailboxes {
  import opened Sequences

  /** Holds the newest submitted frame; an older one that was not taken is replaced. */
  class FrameMailbox<T> {
    var pending: Option<T>

    constructor ()
      ensures pending == None
    {
      pending := None;
    }

    method Submit(frame: T)
      modifies this
      ensures pending == Some(frame)
    {
      pending := Some(frame);
    }

    /** Runs once the wait is over: a frame is there, or shutdown was requested, which takes priority. */
    method WaitAndTake(stopRequested: bool) returns (frame: Option<T>)
      requires stopRequested || pending.Some?
      modifies this
      ensures stopRequested ==> frame == None && pending == old(pending)
      ensures !stopRequested ==> frame == old(pending) && frame.Some? && pending == None
    {
      if stopRequested {
        return None;
      }
      frame := pending;
      pending := None;
    }

    method Clear()
      modifies this
      ensures pending == None
    {
      pending := None;
    }
  }

  /** Holds the newest result, and remembers whether a notification is already under way. */
  class ResultMailbox<T> {
    var latest: Option<T>
    var notificationPending: bool

    constructor ()
      ensures latest == None && !notificationPending
    {
      latest := None;
      notificationPending := false;
    }

    /** Returns whether the caller must queue a notification. */
    method Publish(result: T) returns (mustNotify: bool)
      modifies this
      ensures latest == Some(result) && notificationPending
      ensures mustNotify == !old(notificationPending)
    {
      latest := Some(result);
      if notificationPending {
        return false;
      }
      notificationPending := true;
      mustNotify := true;
    }

    /** Returns whether there is a result to announce. */
    method AcknowledgeNotification() returns (hasResult: bool)
      modifies this
      ensures !notificationPending && latest == old(latest)
      ensures hasResult == latest.Some?
    {
      notificationPending := false;
      hasResult := latest.Some?;
    }

    method TakeLatest() returns (result: Option<T>)
      modifies this
      ensures result == old(latest) && latest == None
      ensures notificationPending == old(notificationPending)
    {
      result := latest;
      latest := None;
    }

    /** A notification that is under way stays under way. */
    method Clear()
      modifies this
      ensures latest == None && notificationPending == old(notificationPending)
    {
      latest := None;
    }
  }
}
