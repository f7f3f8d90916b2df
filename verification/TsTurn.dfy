/**
 * The TypeScript message turn: an event queue, at most one parked `next()`, and a promise, driven by
 * pushes, aborts, a timer and a consumer. It is shown to behave as a plain sequence of events with an end.
 */
module TsTurn {
  import opened Wire

  datatype ServerEvent =
    | ErrorMessage(code: Option<string>, message: Option<string>)
    | EventualResponse(payload: string)
    | OtherEvent(payload: string)

  /** A thrown value. JavaScript lets anything be thrown, so it may be falsy. */
  datatype Thrown = Falsy | ProtocolError(code: string, message: string) | TurnTimeoutError | OtherError(what: string)

  datatype IterResult = Value(event: ServerEvent) | Done | Rejected(err: Thrown)

  datatype Promise = Pending | Resolved(event: ServerEvent) | Failed(reason: Thrown)

  function OrElse(o: Option<string>, d: string): string { if o.Some? then o.value else d }

  function ErrorOf(ev: ServerEvent): (e: Thrown)
    requires ev.ErrorMessage?
    ensures e.ProtocolError?
    ensures match ev.code case Some(code) => e.code == code case None => e.code == "INTERNAL_ERROR"
    ensures match ev.message case Some(message) => e.message == message case None => e.message == "Unknown protocol error"
  {
    ProtocolError(OrElse(ev.code, "INTERNAL_ERROR"), OrElse(ev.message, "Unknown protocol error"))
  }

  // ----- the turn as a plain sequence

  datatype Act = Push(event: ServerEvent) | Abort(err: Thrown) | Timeout | Next

  datatype End = Open | Finished(event: ServerEvent) | Broken(err: Thrown)

  function EndBy(act: Act): End {
    match act
    case Push(ev) => if ev.ErrorMessage? then Broken(ErrorOf(ev)) else if ev.EventualResponse? then Finished(ev) else Open
    case Abort(err) => Broken(err)
    case Timeout => Broken(TurnTimeoutError)
    case Next => Open
  }

  /** How the turn ended: by the first act that ends one. */
  function EndOf(acts: seq<Act>): End {
    if acts == [] then Open
    else
      var n := |acts| - 1;
      if EndOf(acts[..n]).Open? then EndBy(acts[n]) else EndOf(acts[..n])
  }

  /** The events taken in: those pushed before the end, and the one that made it. */
  function Accepted(acts: seq<Act>): seq<ServerEvent> {
    if acts == [] then []
    else
      var n := |acts| - 1;
      if acts[n].Push? && EndOf(acts[..n]).Open? then Accepted(acts[..n]) + [acts[n].event] else Accepted(acts[..n])
  }

  /** What the `k`-th `next()` gives: the `k`-th event, and past the last one the end; `None` while undecided. */
  function ResultFor(es: seq<ServerEvent>, e: End, k: nat): Option<IterResult> {
    if k < |es| then Some(Value(es[k]))
    else
      match e
      case Open => None
      case Finished(_) => Some(Done)
      case Broken(err) => if err.Falsy? then Some(Done) else Some(Rejected(err))
  }

  function ResultAt(acts: seq<Act>, k: nat): Option<IterResult> { ResultFor(Accepted(acts), EndOf(acts), k) }

  /** What awaiting the turn gives. */
  function PromiseOf(e: End): Promise {
    match e
    case Open => Pending
    case Finished(ev) => Resolved(ev)
    case Broken(err) => if err.Falsy? then Pending else Failed(err)
  }

  // ----- how the fields stand for the sequence

  type Results = seq<Option<IterResult>>

  /** The fields record how the turn ended. */
  predicate EndFits(done: bool, finalEvent: Option<ServerEvent>, error: Thrown, promise: Promise, closes: nat, e: End) {
    && done == !e.Open?
    && finalEvent == (if e.Finished? then Some(e.event) else None)
    && error == (if e.Broken? then e.err else Falsy)
    && promise == PromiseOf(e) && closes == (if done then 1 else 0)
  }

  /** The queue holds what was taken in and not handed out; a parked call means there is nothing to hand out. */
  predicate QueueFits(queue: seq<ServerEvent>, waiter: Option<nat>, done: bool, results: Results, es: seq<ServerEvent>) {
    && queue == (if |results| <= |es| then es[|results|..] else [])
    && (waiter.Some? <==> !done && |results| == |es| + 1)
    && (waiter.Some? ==> waiter.value == |results| - 1 && queue == [])
    && (!done ==> |results| <= |es| + 1)
  }

  predicate ResultsFit(results: Results, es: seq<ServerEvent>, e: End) {
    forall k :: 0 <= k < |results| ==> results[k] == ResultFor(es, e, k)
  }

  /** A new event goes to the parked call, or to the queue; everything handed out is an event then. */
  lemma DeliverFits(queue: seq<ServerEvent>, waiter: Option<nat>, results: Results, es: seq<ServerEvent>, ev: ServerEvent, e: End)
    requires QueueFits(queue, waiter, false, results, es) && ResultsFit(results, es, Open)
    ensures var queue' := if waiter.Some? then queue else queue + [ev];
      var results' := if waiter.Some? then results[waiter.value := Some(Value(ev))] else results;
      QueueFits(queue', None, !e.Open?, results', es + [ev]) && ResultsFit(results', es + [ev], e)
  {
    if waiter.Some? {
      assert (es + [ev])[|results|..] == [];
    } else {
      assert (es + [ev])[|results|..] == es[|results|..] + [ev];
    }
  }

  /** The end of the turn releases the parked call with it. */
  lemma FinishFits(queue: seq<ServerEvent>, waiter: Option<nat>, results: Results, es: seq<ServerEvent>, e: End)
    requires QueueFits(queue, waiter, false, results, es) && ResultsFit(results, es, Open) && !e.Open?
    ensures var results' := if waiter.Some? then results[waiter.value := ResultFor(es, e, waiter.value)] else results;
      QueueFits(queue, None, true, results', es) && ResultsFit(results', es, e)
  {
  }

  /** A call takes the first queued event, or the end, or parks. */
  lemma NextFits(queue: seq<ServerEvent>, done: bool, results: Results, es: seq<ServerEvent>, e: End)
    requires QueueFits(queue, None, done, results, es) && ResultsFit(results, es, e) && done == !e.Open?
    ensures var n := |results|;
      var queue' := if queue == [] then [] else queue[1..];
      var waiter' := if queue == [] && !done then Some(n) else None;
      var results' := results + [if queue != [] then Some(Value(queue[0])) else ResultFor(es, e, n)];
      QueueFits(queue', waiter', done, results', es) && ResultsFit(results', es, e)
  {
    if queue != [] { assert queue[1..] == es[|results| + 1..]; }
  }

  // ----- what each act does to the fields

  /**
   * The fields of a turn. `results` are the promises handed out by `next()`, in order; `None` is one that is
   * still pending. A `next()` issued while another is parked takes over its place: the earlier promise is only
   * counted, in `lost`.
   */
  datatype Fields = Fields(
    queue: seq<ServerEvent>, waiter: Option<nat>, done: bool, finalEvent: Option<ServerEvent>, error: Thrown,
    promise: Promise, armed: bool, closes: nat, results: Results, lost: nat)

  function New(timed: bool): Fields { Fields([], None, false, None, Falsy, Pending, timed, 0, [], 0) }

  predicate WaiterOk(f: Fields) { f.waiter.Some? ==> f.waiter.value < |f.results| }

  function Delivered(f: Fields, ev: ServerEvent): Fields
    requires WaiterOk(f)
  {
    if f.waiter.Some? then f.(waiter := None, results := f.results[f.waiter.value := Some(Value(ev))])
    else f.(queue := f.queue + [ev])
  }

  function Ended(f: Fields, final: Option<ServerEvent>, err: Thrown): Fields
    requires WaiterOk(f)
  {
    if f.done then f
    else
      f.(done := true, finalEvent := final, error := err, armed := false, closes := f.closes + 1, waiter := None,
         promise := if err != Falsy then Failed(err) else if final.Some? then Resolved(final.value) else f.promise,
         results := if f.waiter.None? then f.results
                    else f.results[f.waiter.value := Some(if err != Falsy then Rejected(err) else Done)])
  }

  function Pushing(f: Fields, ev: ServerEvent): Fields
    requires WaiterOk(f)
  {
    if f.done then f
    else if ev.ErrorMessage? then Ended(Delivered(f, ev), None, ErrorOf(ev))
    else if ev.EventualResponse? then Ended(Delivered(f, ev), Some(ev), Falsy)
    else Delivered(f, ev)
  }

  function Asking(f: Fields): Fields {
    if f.queue != [] then f.(queue := f.queue[1..], results := f.results + [Some(Value(f.queue[0]))])
    else if f.done then f.(results := f.results + [Some(if f.error != Falsy then Rejected(f.error) else Done)])
    else if f.waiter.Some? then f.(lost := f.lost + 1)
    else f.(waiter := Some(|f.results|), results := f.results + [None])
  }

  function Acted(f: Fields, a: Act): Fields
    requires WaiterOk(f)
  {
    match a
    case Push(ev) => Pushing(f, ev)
    case Abort(err) => Ended(f, None, err)
    case Timeout => Ended(f, None, TurnTimeoutError)
    case Next => Asking(f)
  }

  // ----- the fields stand for the sequence

  predicate Fits(f: Fields, es: seq<ServerEvent>, e: End) {
    && EndFits(f.done, f.finalEvent, f.error, f.promise, f.closes, e) && (f.armed ==> !f.done)
    && QueueFits(f.queue, f.waiter, f.done, f.results, es) && ResultsFit(f.results, es, e)
  }

  lemma PushFits(f: Fields, es: seq<ServerEvent>, ev: ServerEvent)
    requires Fits(f, es, Open)
    ensures WaiterOk(f) && Fits(Pushing(f, ev), es + [ev], EndBy(Push(ev)))
  {
    DeliverFits(f.queue, f.waiter, f.results, es, ev, EndBy(Push(ev)));
  }

  lemma EndingFits(f: Fields, es: seq<ServerEvent>, err: Thrown)
    requires Fits(f, es, Open)
    ensures WaiterOk(f) && Fits(Ended(f, None, err), es, Broken(err))
  {
    FinishFits(f.queue, f.waiter, f.results, es, Broken(err));
  }

  lemma AskFits(f: Fields, es: seq<ServerEvent>, e: End)
    requires Fits(f, es, e)
    ensures Fits(Asking(f), es, e)
  {
    if f.waiter.None? { NextFits(f.queue, f.done, f.results, es, e); }
  }

  lemma ActFits(f: Fields, es: seq<ServerEvent>, e: End, a: Act)
    requires Fits(f, es, e)
    ensures WaiterOk(f)
    ensures Fits(Acted(f, a), if a.Push? && e.Open? then es + [a.event] else es, if e.Open? then EndBy(a) else e)
  {
    if a.Next? {
      AskFits(f, es, e);
    } else if e.Open? {
      match a
      case Push(ev) => PushFits(f, es, ev);
      case Abort(err) => EndingFits(f, es, err);
      case Timeout => EndingFits(f, es, TurnTimeoutError);
    }
  }

  /** Whatever happened, in whatever order, the fields are those of the plain sequence of acts. */
  ghost predicate Follows(f: Fields, acts: seq<Act>) { Fits(f, Accepted(acts), EndOf(acts)) }

  lemma ActFollows(f: Fields, acts: seq<Act>, a: Act)
    requires Follows(f, acts)
    ensures WaiterOk(f) && Follows(Acted(f, a), acts + [a])
  {
    Snoc(acts, a);
    ActFits(f, Accepted(acts), EndOf(acts), a);
  }

  // ----- the code

  class MessageTurn {
    var queue: seq<ServerEvent>
    var waiter: Option<nat>
    var done: bool
    var finalEvent: Option<ServerEvent>
    var error: Thrown
    var promise: Promise
    var armed: bool
    var closes: nat
    var results: Results
    var lost: nat
    ghost var acts: seq<Act>

    ghost function View(): Fields
      reads this
    {
      Fields(queue, waiter, done, finalEvent, error, promise, armed, closes, results, lost)
    }

    /** The turn is where the acts so far lead. */
    ghost predicate Valid()
      reads this
    {
      Follows(View(), acts)
    }

    constructor (turnTimeout: nat)
      ensures Valid() && acts == [] && View() == New(turnTimeout > 0)
    {
      queue, waiter, done, finalEvent, error, promise := [], None, false, None, Falsy, Pending;
      armed, closes, results, lost := turnTimeout > 0, 0, [], 0;
      acts := [];
    }

    /** Hands the event to the parked call, or queues it. */
    method Deliver(event: ServerEvent)
      requires WaiterOk(View())
      modifies this
      ensures View() == Delivered(old(View()), event) && acts == old(acts)
    {
      if waiter.Some? {
        var w := waiter.value;
        waiter := None;
        results := results[w := Some(Value(event))];
      } else {
        queue := queue + [event];
      }
    }

    method Finish(final: Option<ServerEvent>, err: Thrown)
      requires WaiterOk(View())
      modifies this
      ensures View() == Ended(old(View()), final, err) && acts == old(acts)
    {
      if done { return; }
      done := true;
      finalEvent := final;
      error := err;
      armed := false;
      closes := closes + 1;
      if err != Falsy { promise := Failed(err); } else if final.Some? { promise := Resolved(final.value); }
      if waiter.Some? {
        var w := waiter.value;
        waiter := None;
        if err != Falsy { results := results[w := Some(Rejected(err))]; } else { results := results[w := Some(Done)]; }
      }
    }

    /** The part of `push` that runs when the turn is not done. */
    method TakeIn(event: ServerEvent)
      requires WaiterOk(View()) && !done
      modifies this
      ensures View() == Pushing(old(View()), event) && acts == old(acts)
    {
      Deliver(event);
      if event.ErrorMessage? {
        Finish(None, ErrorOf(event));
      } else if event.EventualResponse? {
        Finish(Some(event), Falsy);
      }
    }

    method PushEvent(event: ServerEvent)
      requires Valid()
      modifies this
      ensures Valid() && acts == old(acts) + [Push(event)] && View() == Acted(old(View()), Push(event))
    {
      ActFollows(View(), acts, Push(event));
      if !done { TakeIn(event); }
      acts := acts + [Push(event)];
    }

    method AbortTurn(err: Thrown)
      requires Valid()
      modifies this
      ensures Valid() && acts == old(acts) + [Abort(err)] && View() == Acted(old(View()), Abort(err))
    {
      ActFollows(View(), acts, Abort(err));
      if !done { Finish(None, err); }
      acts := acts + [Abort(err)];
    }

    /** Only a timer that was set and not cleared can fire. */
    method TimerFires()
      requires Valid() && armed
      modifies this
      ensures Valid() && acts == old(acts) + [Timeout] && View() == Acted(old(View()), Timeout)
    {
      ActFollows(View(), acts, Timeout);
      Finish(None, TurnTimeoutError);
      acts := acts + [Timeout];
    }

    /** The body of `next()`; the answer is `results[k]`, now or once something arrives. */
    method Ask() returns (k: nat)
      modifies this
      ensures View() == Asking(old(View())) && acts == old(acts)
      ensures k == if old(queue) == [] && !old(done) && old(waiter).Some? then old(waiter).value else |old(results)|
    {
      k := |results|;
      if |queue| > 0 {
        var event := queue[0];
        queue := queue[1..];
        results := results + [Some(Value(event))];
      } else if done {
        results := results + [Some(if error != Falsy then Rejected(error) else Done)];
      } else if waiter.Some? {
        k := waiter.value;
        lost := lost + 1;
      } else {
        waiter := Some(k);
        results := results + [None];
      }
    }

    method CallNext() returns (k: nat)
      requires Valid()
      modifies this
      ensures Valid() && acts == old(acts) + [Next] && View() == Acted(old(View()), Next)
      ensures old(waiter).None? ==> k == |old(results)| && |results| == k + 1 && lost == old(lost)
      ensures old(waiter).Some? ==> k == old(waiter).value && results == old(results) && lost == old(lost) + 1
    {
      ActFollows(View(), acts, Next);
      k := Ask();
      acts := acts + [Next];
    }
  }

  lemma Snoc(acts: seq<Act>, a: Act)
    ensures EndOf(acts + [a]) == if EndOf(acts).Open? then EndBy(a) else EndOf(acts)
    ensures Accepted(acts + [a]) == if a.Push? && EndOf(acts).Open? then Accepted(acts) + [a.event] else Accepted(acts)
  {
    assert (acts + [a])[..|acts|] == acts;
  }

  // ----- what the plain sequence promises

  /** The failure tells the message's code and text, or a default for one that it lacks. */
  predicate TellsOf(e: Thrown, code: Option<string>, message: Option<string>) {
    && e.ProtocolError?
    && (if code.Some? then e.code == code.value else e.code == "INTERNAL_ERROR")
    && (if message.Some? then e.message == message.value else e.message == "Unknown protocol error")
  }

  /** An error message that ends the turn is delivered, and then fails both the promise and the iterator, in its own words. */
  lemma ErrorReachesBoth(acts: seq<Act>, code: Option<string>, message: Option<string>)
    requires EndOf(acts).Open?
    ensures var acts', n := acts + [Push(ErrorMessage(code, message))], |Accepted(acts)|;
      && ResultAt(acts', n) == Some(Value(ErrorMessage(code, message)))
      && PromiseOf(EndOf(acts')).Failed? && TellsOf(PromiseOf(EndOf(acts')).reason, code, message)
      && ResultAt(acts', n + 1) == Some(Rejected(PromiseOf(EndOf(acts')).reason))
  {
    Snoc(acts, Push(ErrorMessage(code, message)));
  }

  function Pushed(acts: seq<Act>): seq<ServerEvent> {
    if acts == [] then []
    else
      var n := |acts| - 1;
      if acts[n].Push? then Pushed(acts[..n]) + [acts[n].event] else Pushed(acts[..n])
  }

  predicate Ends(ev: ServerEvent) { ev.ErrorMessage? || ev.EventualResponse? }

  predicate EndsOnlyLast(es: seq<ServerEvent>) { forall i :: 0 <= i < |es| - 1 ==> !Ends(es[i]) }

  /** The events taken in are the pushed ones, in order, no further than the first that ends the turn. */
  lemma {:induction false} AcceptedIsPrefix(acts: seq<Act>)
    ensures Accepted(acts) <= Pushed(acts) && EndsOnlyLast(Accepted(acts))
    ensures EndOf(acts).Open? ==> Accepted(acts) == Pushed(acts) && forall i :: 0 <= i < |Accepted(acts)| ==> !Ends(Accepted(acts)[i])
  {
    if acts != [] { AcceptedIsPrefix(acts[..|acts| - 1]); }
  }

  /** The end matches the last event taken in, unless an abort or the timer made it. */
  lemma {:induction false} EndMatches(acts: seq<Act>)
    ensures var es, e := Accepted(acts), EndOf(acts);
      && (e.Finished? ==> es != [] && es[|es| - 1] == e.event && e.event.EventualResponse?)
      && (es != [] && Ends(es[|es| - 1]) ==> e == EndBy(Push(es[|es| - 1])))
      && (e.Broken? && !(es != [] && Ends(es[|es| - 1])) ==> exists i :: 0 <= i < |acts| && !acts[i].Push? && EndBy(acts[i]) == e)
  {
    if acts != [] {
      var n := |acts| - 1;
      var front := acts[..n];
      EndMatches(front);
      AcceptedIsPrefix(front);
      assert acts == front + [acts[n]];
      if EndOf(front).Open? && !acts[n].Push? { assert EndBy(acts[n]) == EndOf(acts); }
    }
  }

  /** An answer once given never changes, whatever happens afterwards. */
  lemma {:induction false} AnswersAreFinal(acts: seq<Act>, more: seq<Act>, k: nat)
    requires ResultAt(acts, k).Some?
    ensures ResultAt(acts + more, k) == ResultAt(acts, k)
    decreases |more|
  {
    if more == [] {
      assert acts + more == acts;
    } else {
      var n := |more| - 1;
      AnswersAreFinal(acts, more[..n], k);
      Snoc(acts + more[..n], more[n]);
      assert acts + more == acts + more[..n] + [more[n]];
    }
  }

  /** After the last event every call gets the same answer: done, or the same rejection, forever. */
  lemma EndRepeats(acts: seq<Act>, more: seq<Act>, k: nat, l: nat)
    requires !EndOf(acts).Open? && k >= |Accepted(acts)| && l >= |Accepted(acts)|
    ensures ResultAt(acts, k).Some? && !ResultAt(acts, k).value.Value? && ResultAt(acts + more, l) == ResultAt(acts, k)
  {
    AnswersAreFinal(acts, more, l);
  }

  lemma {:induction false} EndStays(acts: seq<Act>, more: seq<Act>)
    requires !EndOf(acts).Open?
    ensures EndOf(acts + more) == EndOf(acts)
    decreases |more|
  {
    if more == [] {
      assert acts + more == acts;
    } else {
      var n := |more| - 1;
      EndStays(acts, more[..n]);
      Snoc(acts + more[..n], more[n]);
      assert acts + more == acts + more[..n] + [more[n]];
    }
  }

  predicate Ending(a: Act) { a.Abort? || a.Timeout? || (a.Push? && Ends(a.event)) }

  /** Act `i` is the first that ends a turn. */
  predicate EndsTurn(acts: seq<Act>, i: nat) {
    i < |acts| && Ending(acts[i]) && forall j :: 0 <= j < i ==> !Ending(acts[j])
  }

  predicate NoneEnds(acts: seq<Act>) { forall j :: 0 <= j < |acts| ==> !Ending(acts[j]) }

  /** A turn has ended exactly when some act ends one. */
  lemma {:induction false} OpenIff(acts: seq<Act>)
    ensures EndOf(acts).Open? <==> NoneEnds(acts)
  {
    if acts != [] {
      var n := |acts| - 1;
      OpenIff(acts[..n]);
      assert NoneEnds(acts) <==> NoneEnds(acts[..n]) && !Ending(acts[n]) by {
        assert acts == acts[..n] + [acts[n]];
      }
    }
  }

  /** It ended by the first of them. */
  lemma {:induction false} FirstEndWins(acts: seq<Act>, i: nat)
    requires EndsTurn(acts, i)
    ensures EndOf(acts) == EndBy(acts[i])
  {
    var n := |acts| - 1;
    var front := acts[..n];
    if i < n {
      assert EndsTurn(front, i);
      FirstEndWins(front, i);
    } else {
      assert NoneEnds(front);
      OpenIff(front);
    }
  }

  /** The first act that ends the turn. */
  lemma {:induction false} FirstEnding(acts: seq<Act>) returns (i: nat)
    requires !EndOf(acts).Open?
    ensures EndsTurn(acts, i)
  {
    var n := |acts| - 1;
    var front := acts[..n];
    OpenIff(front);
    if EndOf(front).Open? {
      i := n;
      assert forall j :: 0 <= j < n ==> front[j] == acts[j];
    } else {
      i := FirstEnding(front);
      assert forall j :: 0 <= j < n ==> front[j] == acts[j];
    }
  }

  /** What ended the turn was an abort with a falsy value. */
  ghost predicate AbortedFalsy(acts: seq<Act>) { exists i: nat :: EndsTurn(acts, i) && acts[i] == Abort(Falsy) }

  lemma AbortedFalsyIff(acts: seq<Act>)
    ensures AbortedFalsy(acts) <==> EndOf(acts) == Broken(Falsy)
  {
    if EndOf(acts) == Broken(Falsy) {
      var i := FirstEnding(acts);
      FirstEndWins(acts, i);
    }
    if AbortedFalsy(acts) {
      var i: nat :| EndsTurn(acts, i) && acts[i] == Abort(Falsy);
      FirstEndWins(acts, i);
    }
  }

  /**
   * Awaiting an ended turn settles exactly when it was not an abort with a falsy value that ended it; it
   * resolves exactly when a final response did. Past its last event the iterator ends normally in both cases.
   */
  lemma SettlesIff(acts: seq<Act>, more: seq<Act>)
    requires exists i :: 0 <= i < |acts| && Ending(acts[i])
    ensures EndOf(acts + more) == EndOf(acts)
    ensures PromiseOf(EndOf(acts + more)).Pending? <==> AbortedFalsy(acts)
    ensures PromiseOf(EndOf(acts + more)).Resolved? <==> exists i: nat :: EndsTurn(acts, i) && acts[i].Push? && acts[i].event.EventualResponse?
    ensures forall k: nat :: k >= |Accepted(acts)| ==>
      (ResultAt(acts + more, k) == Some(Done) <==> PromiseOf(EndOf(acts + more)).Resolved? || AbortedFalsy(acts))
  {
    OpenIff(acts);
    var i := FirstEnding(acts);
    FirstEndWins(acts, i);
    EndStays(acts, more);
    AbortedFalsyIff(acts);
    forall k: nat | k >= |Accepted(acts)| ensures ResultAt(acts + more, k) == ResultAt(acts, k) { AnswersAreFinal(acts, more, k); }
  }

  /** The shortest such turn: awaiting it never settles, and its iterator is done at once. */
  lemma FalsyAbortNeverSettles(more: seq<Act>)
    ensures PromiseOf(EndOf([Abort(Falsy)] + more)).Pending? && ResultAt([Abort(Falsy)] + more, 0) == Some(Done)
  {
    var acts := [Abort(Falsy)];
    assert acts[..0] == [] && EndsTurn(acts, 0) && Accepted(acts) == [];
    SettlesIff(acts, more);
  }
}
