/**
 * The event loop both game-loop files open every `step` with:
 * `for event in pygame.event.get():`, returning at the first event the mode
 * acts on.  The queue is a parameter; what a mode makes of one event is a
 * `Reaction`.
 */
module Events {
  import opened Input

  /** What a mode does about one event. */
  datatype Reaction = Ignore | ToQuit | ToPause | ToResume | ToRestart

  /**
   * The loop `for event in pygame.event.get(): ... return ...`: the
   * reaction to the first event that is not ignored, or `Ignore` when
   * there is none.
   */
  function Scan(events: seq<Event>, react: Event -> Reaction): (r: Reaction)
    ensures r == Ignore <==> forall i :: 0 <= i < |events| ==> react(events[i]) == Ignore
    ensures r != Ignore ==>
      exists i :: 0 <= i < |events| && react(events[i]) == r && (forall j :: 0 <= j < i ==> react(events[j]) == Ignore)
  {
    if events == [] then Ignore
    else if react(events[0]) != Ignore then react(events[0])
    else
      var r := Scan(events[1..], react);
      assert forall i :: 1 <= i < |events| ==> events[1..][i - 1] == events[i];
      r
  }

  /** Scanning two queues one after the other is scanning them joined. */
  lemma {:induction false} ScanAppend(a: seq<Event>, b: seq<Event>, react: Event -> Reaction)
    ensures Scan(a + b, react) == if Scan(a, react) != Ignore then Scan(a, react) else Scan(b, react)
  {
    if a != [] {
      assert (a + b)[1..] == a[1..] + b;
      ScanAppend(a[1..], b, react);
    } else {
      assert a + b == b;
    }
  }

  /** The event loop itself: stop at the first event the mode acts on. */
  method Poll(events: seq<Event>, react: Event -> Reaction) returns (r: Reaction)
    ensures r == Scan(events, react)
  {
    var i := 0;
    while i < |events|
      invariant 0 <= i <= |events|
      invariant Scan(events, react) == Scan(events[i..], react)
    {
      if react(events[i]) != Ignore {
        return react(events[i]);
      }
      assert events[i..][1..] == events[i + 1..];
      i := i + 1;
    }
    return Ignore;
  }

  /** The older loop of game_loops.py knows only quitting. */
  function QuitReaction(e: Event): (r: Reaction)
    ensures r == ToQuit <==> IsQuit(e)
    ensures r == Ignore <==> !IsQuit(e)
  {
    if e.QuitEvent? then ToQuit
    else if e.KeyDown? && (e.key == KeyQ || e.key == KeyEscape) then ToQuit
    else Ignore
  }
}
