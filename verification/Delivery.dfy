// How the Codex wake helper classifies what happened on the wire, which is all the
// delivery loop learns about it.
module Delivery {
  import opened Base

  // One JSON-RPC exchange: an answer, an explicit rejection, a lost connection, or an
  // answer that does not have the expected form.
  datatype Reply<+T> = Answered(value: T) | Rejected | ConnectionLost | Malformed

  datatype ThreadStatus = Idle | Busy | NotLoaded | OtherStatus

  // What the app-server does in one run of the helper: the handshake, `thread/read`,
  // `thread/resume` and `turn/start`, the last answered with or without a confirmed turn.
  datatype Exchange = Exchange(open: Reply<()>, read: Reply<ThreadStatus>, resume: Reply<ThreadStatus>, start: Reply<bool>)

  const EXIT_STARTED: int := 0
  const EXIT_ERROR: int := 2
  const EXIT_NOTIFY_FAILED: int := 70
  const EXIT_NOTIFY_UNCONFIRMED: int := 71
  const EXIT_BUSY: int := 75

  datatype Wake = Wake(exit: int, startSent: bool)

  // The exit code `main` gives an exception raised before `turn/start` was sent.
  function FailureExit<T>(r: Reply<T>): int {
    if r.ConnectionLost? then EXIT_NOTIFY_FAILED else EXIT_ERROR
  }

  // `wake` followed by `main`.
  function RunHelper(x: Exchange): Wake {
    if !x.open.Answered? then Wake(FailureExit(x.open), false)
    else if !x.read.Answered? then Wake(FailureExit(x.read), false)
    else if x.read.value == NotLoaded && !x.resume.Answered? then Wake(FailureExit(x.resume), false)
    else
      var status := if x.read.value == NotLoaded then x.resume.value else x.read.value;
      if status == Busy then Wake(EXIT_BUSY, false)
      else if status != Idle then Wake(EXIT_ERROR, false)
      else
        match x.start
        case Answered(confirmed) => Wake(if confirmed then EXIT_STARTED else EXIT_NOTIFY_UNCONFIRMED, true)
        case Rejected => Wake(EXIT_ERROR, true)
        case ConnectionLost => Wake(EXIT_NOTIFY_UNCONFIRMED, true)
        case Malformed => Wake(EXIT_NOTIFY_UNCONFIRMED, true)
  }

  // The server may have started a turn: the request went out and was not refused.
  predicate TurnMayHaveStarted(x: Exchange) {
    RunHelper(x).startSent && x.start != Rejected
  }

  // The exit code tells exactly whether a turn may have been started.
  lemma ExitTellsWhetherTurnMayHaveStarted(x: Exchange)
    ensures TurnMayHaveStarted(x) <==> RunHelper(x).exit in {EXIT_STARTED, EXIT_NOTIFY_UNCONFIRMED}
  {
  }

  // The session was found idle, at once or after it was loaded.
  predicate FoundIdle(x: Exchange) {
    x.open.Answered? && (x.read == Answered(Idle) || (x.read == Answered(NotLoaded) && x.resume == Answered(Idle)))
  }

  predicate FoundBusy(x: Exchange) {
    x.open.Answered? && (x.read == Answered(Busy) || (x.read == Answered(NotLoaded) && x.resume == Answered(Busy)))
  }

  // The connection broke before `turn/start` was due.
  predicate LostEarly(x: Exchange) {
    || x.open.ConnectionLost?
    || (x.open.Answered? && (x.read.ConnectionLost? || (x.read == Answered(NotLoaded) && x.resume.ConnectionLost?)))
  }

  // What each exit code says about the exchange.
  lemma ExitMeans(x: Exchange)
    ensures RunHelper(x).startSent <==> FoundIdle(x)
    ensures RunHelper(x).exit == 0 <==> FoundIdle(x) && x.start == Answered(true)
    ensures RunHelper(x).exit == 71 <==>
      FoundIdle(x) && (x.start == Answered(false) || x.start.ConnectionLost? || x.start.Malformed?)
    ensures RunHelper(x).exit == 75 <==> FoundBusy(x)
    ensures RunHelper(x).exit == 70 <==> LostEarly(x)
    ensures RunHelper(x).exit == 2 <==>
      !FoundBusy(x) && !LostEarly(x) && !(FoundIdle(x) && !x.start.Rejected?)
  {
    if x.open.Answered? && x.read == Answered(NotLoaded) {
      assert x.resume.Answered? ==> x.resume == Answered(x.resume.value);
    }
  }
}
