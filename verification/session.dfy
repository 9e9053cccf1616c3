/** The loop run against a clipboard over a finite stretch of time. The clipboard changes
    only when another program copies text onto it or when the loop writes a translation;
    a failed write leaves it as it was. */
module Session {
  import opened Wrappers
  import opened Loop

  /** The clipboard's content and the loop's last-observed text. */
  datatype World = World(clipboard: string, last: string)

  datatype Event =
    | UserCopy(text: string)                                            // some other program copies `text`
    | Poll(readFails: bool, translation: Option<string>, write: Write)  // one loop iteration

  /** Nothing on the clipboard the loop has not already acted on. */
  predicate Settled(w: World) {
    w.clipboard == w.last
  }

  /** The state entering the loop: the clipboard as read at start-up is taken as observed. */
  function Start(clipboard: string): World {
    World(clipboard, clipboard)
  }

  /** The iteration a poll event performs against the world. */
  function PollStep(w: World, e: Event): Outcome
    requires e.Poll?
  {
    Step(w.last, if e.readFails then PasteFailed else Pasted(w.clipboard), e.translation, e.write)
  }

  function Next(w: World, e: Event): World {
    match e
    case UserCopy(t) => World(t, w.last)
    case Poll(_, _, _) =>
      var o := PollStep(w, e);
      World(ClipboardAfter(w.clipboard, o), o.last)
  }

  function Run(w: World, evs: seq<Event>): World
    decreases |evs|
  {
    if evs == [] then w else Run(Next(w, evs[0]), evs[1..])
  }

  /** The text handed to the translator by event `e`, if any. */
  function Requested(w: World, e: Event): seq<string> {
    if e.Poll? && PollStep(w, e).source.Some? then [PollStep(w, e).source.value] else []
  }

  /** Every text handed to the translator along `evs`, in order. */
  function Sources(w: World, evs: seq<Event>): seq<string>
    decreases |evs|
  {
    if evs == [] then [] else Requested(w, evs[0]) + Sources(Next(w, evs[0]), evs[1..])
  }

  /** Every text other programs copied along `evs`, in order. */
  function Copies(evs: seq<Event>): seq<string>
    decreases |evs|
  {
    if evs == [] then [] else (if evs[0].UserCopy? then [evs[0].text] else []) + Copies(evs[1..])
  }

  /** Running `[e] + evs` is one event, then the rest. */
  lemma Unfold(w: World, e: Event, evs: seq<Event>)
    ensures Sources(w, [e] + evs) == Requested(w, e) + Sources(Next(w, e), evs)
    ensures Run(w, [e] + evs) == Run(Next(w, e), evs)
  {
    assert ([e] + evs)[1..] == evs;
  }

  /** A poll either requests a translation of the clipboard as it differs from the last-observed
      text and leaves the world settled, or changes nothing at all. */
  lemma PollEffect(w: World, e: Event)
    requires e.Poll?
    ensures Requested(w, e) != [] ==> Requested(w, e) == [w.clipboard] && !Settled(w) && Settled(Next(w, e))
    ensures Requested(w, e) == [] ==> Next(w, e) == w
  {
  }

  /** With no other program copying, a settled loop stays settled and translates nothing. */
  lemma {:induction false} QuietIsIdle(w: World, evs: seq<Event>)
    requires Settled(w)
    requires forall i :: 0 <= i < |evs| ==> evs[i].Poll?
    ensures Sources(w, evs) == []
    ensures Run(w, evs) == w
    decreases |evs|
  {
    if evs != [] {
      PollEffect(w, evs[0]);
      QuietIsIdle(w, evs[1..]);
    }
  }

  /** The loop never requests more translations than other programs made copies, plus one
      for unsettled text present at the start: its own output never triggers a translation. */
  lemma {:induction false} SourcesBounded(w: World, evs: seq<Event>)
    ensures |Sources(w, evs)| <= |Copies(evs)| + (if Settled(w) then 0 else 1)
    decreases |evs|
  {
    if evs != [] {
      var e := evs[0];
      SourcesBounded(Next(w, e), evs[1..]);
      if e.Poll? {
        PollEffect(w, e);
      }
    }
  }

  /** Every text handed to the translator was copied by another program, or is the unsettled
      text present at the start; never a translation the loop wrote itself. */
  lemma {:induction false} SourcesAreCopies(w: World, evs: seq<Event>)
    ensures forall i :: 0 <= i < |Sources(w, evs)| ==>
      Sources(w, evs)[i] in Copies(evs) || (!Settled(w) && Sources(w, evs)[i] == w.clipboard)
    decreases |evs|
  {
    if evs != [] {
      var e := evs[0];
      var w' := Next(w, e);
      var rest := Sources(w', evs[1..]);
      SourcesAreCopies(w', evs[1..]);
      assert Sources(w, evs) == Requested(w, e) + rest;
      assert Copies(evs) == (if e.UserCopy? then [e.text] else []) + Copies(evs[1..]);
      if e.Poll? {
        PollEffect(w, e);
      }
      forall i | 0 <= i < |Sources(w, evs)|
        ensures Sources(w, evs)[i] in Copies(evs) || (!Settled(w) && Sources(w, evs)[i] == w.clipboard)
      {
        if i >= |Requested(w, e)| {
          assert Sources(w, evs)[i] == rest[i - |Requested(w, e)|];
        }
      }
    }
  }

  /** From start-up, only text other programs copied is ever translated. */
  lemma FromStartOnlyCopiesTranslated(clipboard: string, evs: seq<Event>)
    ensures forall i :: 0 <= i < |Sources(Start(clipboard), evs)| ==> Sources(Start(clipboard), evs)[i] in Copies(evs)
    ensures |Sources(Start(clipboard), evs)| <= |Copies(evs)|
  {
    SourcesAreCopies(Start(clipboard), evs);
    SourcesBounded(Start(clipboard), evs);
  }
}
