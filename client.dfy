/** The page's ingestion client: it bulk-loads the sample history into the
    sketch's buffer, appends each live sample the server pushes, keeps the
    zoom, and reopens a closed stream when the page becomes visible again.

    The browser's EventSource is reduced to its readyState, and the history
    request to a count of responses still outstanding; the responses, the
    messages and the stream's own state changes are the events the page
    reacts to, each a method here. */
module Client {
  import opened Sketch

  /** EventSource.readyState: CONNECTING, OPEN or CLOSED. */
  type ReadyState = r: int | 0 <= r <= 2

  const Connecting: ReadyState := 0
  const Open: ReadyState := 1
  const Closed: ReadyState := 2

  const DefaultSliceSecs: real := 15.0

  /** One server-sent-events subscription to '/status'. */
  class EventStream {
    var readyState: ReadyState

    /** A newly created EventSource is connecting. */
    constructor ()
      ensures readyState == Connecting
    {
      readyState := Connecting;
    }
  }

  class ThermoClient {
    const sketch: ThermoSketch
    var sliceSecs: real
    var eventSource: EventStream
    var subscriptions: nat     // streams opened so far
    var historyRequests: nat   // 'all-status' requests issued so far
    var pendingHistory: nat    // of those, the ones whose response has not arrived

    /** Every subscription set-up issues exactly one history request. */
    ghost predicate Valid()
      reads this
    {
      historyRequests == subscriptions && pendingHistory <= historyRequests
    }

    /** A new client uses the default zoom and sets up exactly one subscription. */
    constructor (sketch: ThermoSketch)
      ensures Valid() && this.sketch == sketch
      ensures sliceSecs == DefaultSliceSecs
      ensures subscriptions == 1 && historyRequests == 1 && pendingHistory == 1
      ensures fresh(eventSource) && eventSource.readyState == Connecting
    {
      this.sketch := sketch;
      sliceSecs := DefaultSliceSecs;
      subscriptions, historyRequests, pendingHistory := 0, 0, 0;
      // A placeholder for definite assignment only: SetUpEventProcessing
      // replaces it at once, and it is not counted as a subscription
      // (subscriptions ends at 1).
      eventSource := new EventStream();
      new;
      SetUpEventProcessing();
    }

    /** Issue one history request and open one new stream in place of the old. */
    method SetUpEventProcessing()
      requires Valid()
      modifies this
      ensures Valid()
      ensures historyRequests == old(historyRequests) + 1 && pendingHistory == old(pendingHistory) + 1
      ensures subscriptions == old(subscriptions) + 1
      ensures fresh(eventSource) && eventSource.readyState == Connecting
      ensures sliceSecs == old(sliceSecs)
    {
      historyRequests := historyRequests + 1;
      pendingHistory := pendingHistory + 1;
      eventSource := new EventStream();
      subscriptions := subscriptions + 1;
    }

    /** The history response arrives: the buffer becomes exactly the fetched
        samples, whatever live samples it held before. */
    method HistoryArrived(records: seq<Sample>)
      requires Valid() && pendingHistory > 0
      modifies this, sketch
      ensures Valid()
      ensures sketch.stateRecords == records
      ensures pendingHistory == old(pendingHistory) - 1
      ensures historyRequests == old(historyRequests) && subscriptions == old(subscriptions)
      ensures eventSource == old(eventSource) && sliceSecs == old(sliceSecs)
    {
      pendingHistory := pendingHistory - 1;
      sketch.AddAllStateRecords(records);
    }

    /** The history request fails: nothing but the outstanding count changes. */
    method HistoryFailed()
      requires Valid() && pendingHistory > 0
      modifies this
      ensures Valid()
      ensures pendingHistory == old(pendingHistory) - 1
      ensures historyRequests == old(historyRequests) && subscriptions == old(subscriptions)
      ensures eventSource == old(eventSource) && sliceSecs == old(sliceSecs)
    {
      pendingHistory := pendingHistory - 1;
    }

    /** A message arrives on the open stream (processEvent): the sample is
        appended to the buffer once, after everything already there. */
    method MessageArrived(state: Sample)
      requires Valid() && eventSource.readyState == Open
      modifies sketch
      ensures Valid()
      ensures sketch.stateRecords == old(sketch.stateRecords) + [state]
    {
      sketch.AddStateRecord(state);
    }

    /** The browser opens the stream; the onopen handler only logs. */
    method StreamOpened()
      requires Valid() && eventSource.readyState == Connecting
      modifies eventSource
      ensures Valid()
      ensures eventSource.readyState == Open
    {
      eventSource.readyState := Open;
    }

    /** The stream fails: the browser moves it to `next` (CONNECTING while it
        retries by itself, or CLOSED); the onerror handler only logs, so no
        stream is opened and the buffer is untouched. */
    method StreamError(next: ReadyState)
      requires Valid() && next != Open
      modifies eventSource
      ensures Valid()
      ensures eventSource.readyState == next
      ensures unchanged(this) && unchanged(sketch)
    {
      eventSource.readyState := next;
    }

    /** The zoom control's value becomes the seconds per pixel the next
        redraw divides by. */
    method Zoom(value: real)
      requires Valid()
      modifies this
      ensures Valid()
      ensures sliceSecs == value
      ensures eventSource == old(eventSource) && subscriptions == old(subscriptions)
      ensures historyRequests == old(historyRequests) && pendingHistory == old(pendingHistory)
    {
      sliceSecs := value;
    }

    /** The page's visibility changed: a new subscription is set up exactly
        when the page is now visible and the current stream is closed;
        otherwise nothing changes. */
    method VisibilityChanged(visible: bool)
      requires Valid()
      modifies this
      ensures Valid() && sliceSecs == old(sliceSecs) && unchanged(sketch)
      ensures visible && old(eventSource.readyState) == Closed ==>
        subscriptions == old(subscriptions) + 1 &&
        historyRequests == old(historyRequests) + 1 && pendingHistory == old(pendingHistory) + 1 &&
        fresh(eventSource) && eventSource.readyState == Connecting
      ensures !(visible && old(eventSource.readyState) == Closed) ==>
        subscriptions == old(subscriptions) &&
        historyRequests == old(historyRequests) && pendingHistory == old(pendingHistory) &&
        eventSource == old(eventSource) && unchanged(eventSource)
    {
      var rs := eventSource.readyState;
      if visible && rs == Closed {
        SetUpEventProcessing();
      }
    }
  }

  /** The start-up history replaces the buffer wholesale: a live sample that
      arrives before the history response is discarded, one that arrives
      after it is kept at the end. */
  method BootstrapRace(history: seq<Sample>, live: Sample) returns (liveFirst: seq<Sample>, historyFirst: seq<Sample>)
    ensures liveFirst == history
    ensures historyFirst == history + [live]
  {
    var early := new ThermoSketch();
    var earlyClient := new ThermoClient(early);
    earlyClient.StreamOpened();
    earlyClient.MessageArrived(live);
    earlyClient.HistoryArrived(history);
    liveFirst := early.stateRecords;

    var late := new ThermoSketch();
    var lateClient := new ThermoClient(late);
    lateClient.HistoryArrived(history);
    lateClient.StreamOpened();
    lateClient.MessageArrived(live);
    historyFirst := late.stateRecords;
  }

  /** After the stream closes, hiding the page opens nothing, showing it
      opens exactly one new stream (with one history request), and showing
      it again while that stream connects opens nothing more. */
  method ReconnectOnlyWhenVisibleAndClosed() returns (afterHidden: nat, afterShown: nat, afterShownAgain: nat)
    ensures afterHidden == 1 && afterShown == 2 && afterShownAgain == 2
  {
    var sketch := new ThermoSketch();
    var client := new ThermoClient(sketch);
    client.StreamOpened();
    client.StreamError(Closed);
    client.VisibilityChanged(false);
    afterHidden := client.subscriptions;
    client.VisibilityChanged(true);
    afterShown := client.subscriptions;
    client.VisibilityChanged(true);
    afterShownAgain := client.subscriptions;
  }
}
