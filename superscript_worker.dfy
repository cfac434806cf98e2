/**
 * The superscript worker process (cmd/superscript/worker.go): a Temporal
 * worker wrapped with an `isRunning` flag that guards Start and Stop. The
 * underlying SDK worker is reduced to whether its Start fails and to a count
 * of the Start and Stop calls it received.
 */
module SuperscriptWorker {
  import opened GoTypes

  class Worker {
    var isRunning: bool
    /** Calls that reached the underlying SDK worker. */
    var sdkStarts: nat
    var sdkStops: nat

    /** NewWorker: the worker is built but not running. */
    constructor ()
      ensures !isRunning && sdkStarts == 0 && sdkStops == 0
    {
      isRunning := false;
      sdkStarts := 0;
      sdkStops := 0;
    }

    /** Start. `sdkStartError` is what the underlying worker's Start returns. */
    method Start(sdkStartError: Option<string>) returns (err: Option<string>)
      modifies this
      ensures old(isRunning) ==>
        err == Some("worker is already running") && isRunning && sdkStarts == old(sdkStarts)
      ensures !old(isRunning) ==> sdkStarts == old(sdkStarts) + 1
      ensures !old(isRunning) && sdkStartError.Some? ==>
        err == Some("failed to start worker: " + sdkStartError.value) && !isRunning
      ensures !old(isRunning) && sdkStartError.None? ==> err == None && isRunning
      ensures isRunning <==> old(isRunning) || sdkStartError.None?
      ensures sdkStops == old(sdkStops)
    {
      if isRunning {
        return Some("worker is already running");
      }
      sdkStarts := sdkStarts + 1;
      if sdkStartError.Some? {
        return Some("failed to start worker: " + sdkStartError.value);
      }
      isRunning := true;
      err := None;
    }

    /** Stop: stops the underlying worker only when running. */
    method Stop()
      modifies this
      ensures !isRunning
      ensures sdkStops == if old(isRunning) then old(sdkStops) + 1 else old(sdkStops)
      ensures sdkStarts == old(sdkStarts)
    {
      if !isRunning {
        return;
      }
      sdkStops := sdkStops + 1;
      isRunning := false;
    }
  }

  /** Stopping twice stops the underlying worker at most once, and a start
      after a stop reaches the underlying worker again. */
  method StopIsIdempotent(w: Worker)
    modifies w
    ensures !w.isRunning
    ensures w.sdkStops <= old(w.sdkStops) + 1
    ensures w.sdkStarts == old(w.sdkStarts)
  {
    w.Stop();
    w.Stop();
  }

  /** A fresh worker started twice: the first start succeeds, the second is
      refused and does not reach the underlying worker. */
  method StartTwice() returns (first: Option<string>, second: Option<string>)
    ensures first == None && second == Some("worker is already running")
  {
    var w := new Worker();
    first := w.Start(None);
    second := w.Start(None);
    assert w.sdkStarts == 1;
  }
}
