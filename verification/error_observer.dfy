/**
  The VTK error observer (sksurgeryvtk/vtk/error_observer.py): a latch that
  VTK's error and warning events set, and that the application polls.
  Polling the flag reads and clears it; the last message is kept until the
  next event overwrites it.
 */
module ErrorObserver {
  import opened Wrappers

  /** The observer's two private fields. */
  datatype Observer = Observer(occurred: bool, message: Option<string>)

  /** What the application or VTK does to the observer. */
  datatype Event =
    | Notify(msg: string)     // VTK invokes the observer with a message
    | Poll                    // `error_occurred()`
    | ReadMessage             // `error_message()`

  /** What each call returns to its caller. */
  datatype Output = NoOutput | Flag(b: bool) | Message(m: Option<string>)

  /** A fresh observer: no error, no message. */
  function Init(): (o: Observer)
    ensures !o.occurred
    ensures o.message == None
  {
    Observer(false, None)
  }

  /** `__call__`: VTK reports an error or warning. The message of the event
      replaces any earlier one, read or not. */
  function Record(o: Observer, msg: string): (o': Observer)
    ensures o'.occurred
    ensures o'.message == Some(msg)
    ensures ErrorMessage(o') == Some(msg) && ErrorOccurred(o').0
  {
    o.(occurred := true, message := Some(msg))
  }

  /** `error_occurred()`: returns the flag and clears it. */
  function ErrorOccurred(o: Observer): (r: (bool, Observer))
    ensures r.0 == o.occurred
    ensures !r.1.occurred
    ensures r.1.message == o.message
  {
    (o.occurred, o.(occurred := false))
  }

  /** `error_message()`: the last recorded message, or None. Reading it
      never clears anything. */
  function ErrorMessage(o: Observer): (m: Option<string>)
    ensures m == o.message
  {
    o.message
  }

  /** One call on the observer: its new state and what the call returned. */
  function Step(o: Observer, e: Event): (r: (Observer, Output))
    ensures e.Notify? ==> r.0 == Record(o, e.msg) && r.1 == NoOutput
    ensures e.Poll? ==> r.1 == Flag(o.occurred) && r.0 == ErrorOccurred(o).1
    ensures e.ReadMessage? ==> r.0 == o && r.1 == Message(o.message)
  {
    match e
    case Notify(msg) => (Record(o, msg), NoOutput)
    case Poll =>
      var (b, o') := ErrorOccurred(o);
      (o', Flag(b))
    case ReadMessage => (o, Message(ErrorMessage(o)))
  }

  /** The observer after a sequence of calls. */
  function Run(o: Observer, events: seq<Event>): Observer
    decreases |events|
  {
    if |events| == 0 then o else Run(Step(o, events[0]).0, events[1..])
  }

  // ---------------------------------------------------------------------
  // Reference definitions over the history of calls

  /** Some notification of the history has not been followed by a poll. */
  ghost predicate UnreadNotify(events: seq<Event>) {
    exists i :: 0 <= i < |events| && events[i].Notify? && NoPollAfter(events, i)
  }

  ghost predicate NoPollAfter(events: seq<Event>, i: int)
    requires 0 <= i < |events|
  {
    forall j :: i < j < |events| ==> !events[j].Poll?
  }

  /** `events[i]` is the last notification of the history. */
  ghost predicate LastNotify(events: seq<Event>, i: int)
    requires 0 <= i < |events|
  {
    events[i].Notify? && forall j :: i < j < |events| ==> !events[j].Notify?
  }

  ghost predicate NoNotify(events: seq<Event>) {
    forall j :: 0 <= j < |events| ==> !events[j].Notify?
  }

  // ---------------------------------------------------------------------
  // Single-call properties

  /** A fresh observer reports no error and has no message. */
  lemma InitReportsNothing()
    ensures Step(Init(), Poll).1 == Flag(false)
    ensures Step(Init(), ReadMessage).1 == Message(None)
  {
  }

  /** After any notification the next poll reports an error. */
  lemma PollAfterRecord(o: Observer, msg: string)
    ensures Step(Record(o, msg), Poll).1 == Flag(true)
  {
  }

  /** Read-and-clear: two polls in a row return true then false. */
  lemma PollTwice(o: Observer)
    requires o.occurred
    ensures Step(o, Poll).1 == Flag(true)
    ensures Step(Step(o, Poll).0, Poll).1 == Flag(false)
  {
  }

  /** A poll never touches the message and reading the message never
      touches the flag. */
  lemma ReadsDoNotInterfere(o: Observer)
    ensures Step(o, Poll).0.message == o.message
    ensures Step(o, ReadMessage).0 == o
  {
  }

  /** The flag goes from true to false only through a poll, and a
      notification only ever sets it. */
  lemma FlagFallsOnlyOnPoll(o: Observer, e: Event)
    ensures o.occurred && !Step(o, e).0.occurred ==> e.Poll?
    ensures e.Notify? ==> Step(o, e).0.occurred
  {
  }

  /** The message changes only through a notification. */
  lemma MessageChangesOnlyOnNotify(o: Observer, e: Event)
    ensures Step(o, e).0.message != o.message ==> e.Notify?
  {
  }

  // ---------------------------------------------------------------------
  // Properties of whole histories

  /** Last write wins: after notifications with messages m1..mn the
      observer holds mn, whatever it held before. */
  lemma {:induction false} LastWriteWins(o: Observer, msgs: seq<string>)
    requires |msgs| > 0
    ensures Run(o, seq(|msgs|, i requires 0 <= i < |msgs| => Notify(msgs[i]))).message
            == Some(msgs[|msgs| - 1])
    ensures Run(o, seq(|msgs|, i requires 0 <= i < |msgs| => Notify(msgs[i]))).occurred
    decreases |msgs|
  {
    var events := seq(|msgs|, i requires 0 <= i < |msgs| => Notify(msgs[i]));
    if |msgs| == 1 {
      assert events[1..] == [];
    } else {
      var rest := msgs[1..];
      assert events[1..] == seq(|rest|, i requires 0 <= i < |rest| => Notify(rest[i]));
      LastWriteWins(Record(o, msgs[0]), rest);
    }
  }

  /** Splitting a history at its last call. */
  lemma {:induction false} RunSnoc(o: Observer, events: seq<Event>, e: Event)
    ensures Run(o, events + [e]) == Step(Run(o, events), e).0
    decreases |events|
  {
    if |events| == 0 {
      assert events + [e] == [e];
      assert [e][1..] == [];
    } else {
      assert (events + [e])[1..] == events[1..] + [e];
      RunSnoc(Step(o, events[0]).0, events[1..], e);
    }
  }

  /** Starting from a fresh observer, the flag is set exactly when some
      notification has not been followed by a poll. */
  lemma {:induction false} FlagMeansUnreadNotify(events: seq<Event>)
    ensures Run(Init(), events).occurred <==> UnreadNotify(events)
    decreases |events|
  {
    if |events| == 0 {
      return;
    }
    var prefix := events[..|events| - 1];
    var e := events[|events| - 1];
    assert events == prefix + [e];
    RunSnoc(Init(), prefix, e);
    FlagMeansUnreadNotify(prefix);
    match e
    case Notify(_) =>
      assert events[|events| - 1].Notify? && NoPollAfter(events, |events| - 1);
    case Poll =>
      // a poll ends every earlier notification's unread period
      assert !Run(Init(), events).occurred;
    case ReadMessage =>
      if UnreadNotify(events) {
        var i :| 0 <= i < |events| && events[i].Notify? && NoPollAfter(events, i);
        assert i < |events| - 1;
        assert prefix[i].Notify? && NoPollAfter(prefix, i);
      }
      if UnreadNotify(prefix) {
        var i :| 0 <= i < |prefix| && prefix[i].Notify? && NoPollAfter(prefix, i);
        assert events[i].Notify? && NoPollAfter(events, i);
      }
  }

  /** Starting from a fresh observer, the message is that of the last
      notification, or None when there has been none. */
  lemma {:induction false} MessageIsLastNotify(events: seq<Event>)
    ensures NoNotify(events) ==> Run(Init(), events).message == None
    ensures forall i :: 0 <= i < |events| && LastNotify(events, i) ==>
              Run(Init(), events).message == Some(events[i].msg)
    decreases |events|
  {
    if |events| == 0 {
      return;
    }
    var prefix := events[..|events| - 1];
    var e := events[|events| - 1];
    assert events == prefix + [e];
    RunSnoc(Init(), prefix, e);
    MessageIsLastNotify(prefix);
    if !e.Notify? {
      forall i | 0 <= i < |events| && LastNotify(events, i)
        ensures Run(Init(), events).message == Some(events[i].msg)
      {
        assert i < |events| - 1;
        assert LastNotify(prefix, i);
      }
    } else {
      forall i | 0 <= i < |events| && LastNotify(events, i)
        ensures i == |events| - 1
      {
      }
    }
  }
}
