/** The bookkeeping `main_loop` does on each pass before it runs a command:
    the interrupt latch, the CursorMoved / TextChanged shadows, the
    garbage-collect flag and the choice between Ex and Normal mode. */
module MainLoopModel {
  import opened MainTypes

  /** A cursor position (`pos_T` without the virtual column). */
  datatype Pos = Pos(lnum: int, col: int)

  /** Autocommands and other effects, in the order the loop causes them. */
  datatype LoopEvent =
    | FlushTypeahead        // vgetc() to throw away typeahead after CTRL-C
    | CursorMovedEvent      // EVENT_CURSORMOVED
    | TextChangedEvent      // EVENT_TEXTCHANGED

  /** What the pass does at its end. */
  datatype Dispatch = ExCommands(vimMode: bool) | NormalCommand | Return

  /** What the loop reads but does not change during one pass. `interrupted`
      says that CTRL-C was typed while the previous command ran (the signal
      handler sets `got_int`); buffers are numbered, 0 standing for no buffer. */
  datatype World = World(
    interrupted: bool,
    globalBusy: bool,       // a ":g" command is running
    quitMore: bool,
    stuffEmpty: bool,       // stuff_empty()
    finishOp: bool,
    hasCursorMoved: bool,   // has_cursormoved()
    conceal: bool,          // curwin->w_p_cole > 0
    hasTextChanged: bool,   // has_textchanged()
    cursor: Pos,            // curwin->w_cursor
    curbuf: int,
    changedtick: int)       // curbuf->b_changedtick

  /** The state the loop updates. */
  datatype LoopState = LoopState(
    gotInt: bool,
    previousGotInt: bool,
    exmode: ExMode,
    skipRedraw: bool,
    doRedraw: bool,
    lastCursorMoved: Pos,
    lastChangedTick: int,
    lastChangedTickBuf: int,
    mayGarbageCollect: bool,
    events: seq<LoopEvent>)

  /** The CTRL-C latch. Inside ":g/pat/visual" (`noexmode`) a second CTRL-C in a
      row goes back to Ex mode and keeps `got_int` so that it aborts the ":g";
      otherwise `got_int` is reset, except while a ":g" runs in Ex mode. */
  function Latch(st: LoopState, w: World, noexmode: bool): (r: LoopState)
    ensures r == st.(gotInt := r.gotInt, previousGotInt := r.previousGotInt, exmode := r.exmode, events := r.events)
    ensures r.previousGotInt == (st.gotInt || w.interrupted)
    ensures r.exmode != st.exmode <==>
      (st.gotInt || w.interrupted) && noexmode && w.globalBusy && st.exmode == ExOff && st.previousGotInt
    ensures r.exmode != st.exmode ==> r.exmode == ExNormal && r.gotInt
    ensures r.gotInt <==> ((st.gotInt || w.interrupted) &&
      (r.exmode != st.exmode || (w.globalBusy && st.exmode != ExOff)))
    ensures r.events == st.events + (if r.previousGotInt && !r.gotInt && !w.quitMore then [FlushTypeahead] else [])
  {
    if st.gotInt || w.interrupted then
      if noexmode && w.globalBusy && st.exmode == ExOff && st.previousGotInt then
        st.(gotInt := true, exmode := ExNormal, previousGotInt := true)
      else if !w.globalBusy || st.exmode == ExOff then
        st.(gotInt := false, previousGotInt := true,
            events := st.events + if w.quitMore then [] else [FlushTypeahead])
      else st.(gotInt := true, previousGotInt := true)
    else st.(previousGotInt := false)
  }

  /** Whether the pass redraws: not right after `:` in wait_return and not in
      Ex mode, and only when asked to or when no typeahead is stuffed. */
  predicate Redraws(st: LoopState, w: World): (r: bool)
    ensures r ==> !st.skipRedraw && st.exmode == ExOff
    ensures r ==> st.doRedraw || w.stuffEmpty
    ensures !st.skipRedraw && st.exmode == ExOff && (st.doRedraw || w.stuffEmpty) ==> r
  {
    !st.skipRedraw && st.exmode == ExOff && (st.doRedraw || w.stuffEmpty)
  }

  /** The CursorMoved check: when the cursor is not where it was last seen,
      fire CursorMoved (if there are such autocommands) and remember it. */
  function CursorCheck(st: LoopState, w: World): (r: LoopState)
    ensures r == st.(lastCursorMoved := r.lastCursorMoved, events := r.events)
    ensures r.lastCursorMoved == if !w.finishOp && (w.hasCursorMoved || w.conceal) then w.cursor else st.lastCursorMoved
    ensures r.events == st.events
      + (if !w.finishOp && w.hasCursorMoved && st.lastCursorMoved != w.cursor then [CursorMovedEvent] else [])
  {
    if !w.finishOp && (w.hasCursorMoved || w.conceal) && st.lastCursorMoved != w.cursor then
      st.(events := st.events + (if w.hasCursorMoved then [CursorMovedEvent] else []), lastCursorMoved := w.cursor)
    else st
  }

  /** The TextChanged check: when the change tick differs from the last one
      seen, fire TextChanged, but only if that tick was seen in the same buffer;
      then remember the buffer and the tick. */
  function TickCheck(st: LoopState, w: World): (r: LoopState)
    ensures r == st.(lastChangedTick := r.lastChangedTick, lastChangedTickBuf := r.lastChangedTickBuf, events := r.events)
    ensures !w.finishOp && w.hasTextChanged ==> r.lastChangedTick == w.changedtick
    ensures !w.finishOp && w.hasTextChanged && st.lastChangedTick != w.changedtick ==> r.lastChangedTickBuf == w.curbuf
    ensures !(!w.finishOp && w.hasTextChanged) ==> r == st
    ensures st.lastChangedTick == w.changedtick ==> r == st
    ensures r.events == st.events
      + (if !w.finishOp && w.hasTextChanged && st.lastChangedTick != w.changedtick
           && st.lastChangedTickBuf == w.curbuf then [TextChangedEvent] else [])
  {
    if !w.finishOp && w.hasTextChanged && st.lastChangedTick != w.changedtick then
      st.(events := st.events + (if st.lastChangedTickBuf == w.curbuf then [TextChangedEvent] else []),
          lastChangedTickBuf := w.curbuf, lastChangedTick := w.changedtick)
    else st
  }

  /** The part of the pass before redrawing: right after `:` in wait_return
      and in Ex mode only `skip_redraw` is reset; a redrawing pass does the
      CursorMoved and TextChanged checks and clears `do_redraw`. */
  function Autocmds(st: LoopState, w: World): (r: LoopState)
    ensures !r.skipRedraw && r.gotInt == st.gotInt && r.exmode == st.exmode
    ensures r.previousGotInt == st.previousGotInt
    ensures r.doRedraw <==> st.doRedraw && !Redraws(st, w)
    ensures Redraws(st, w) ==> r == TickCheck(CursorCheck(st, w), w).(doRedraw := false)
    ensures !Redraws(st, w) ==> r == st.(skipRedraw := false)
  {
    if st.skipRedraw || st.exmode != ExOff then st.(skipRedraw := false)
    else if st.doRedraw || w.stuffEmpty then TickCheck(CursorCheck(st, w), w).(doRedraw := false)
    else st
  }

  /** Ex mode does a round of Ex commands, except inside ":g/pat/visual",
      which returns to the ":g" instead; otherwise a Normal mode command runs. */
  function DispatchFor(exmode: ExMode, noexmode: bool): (d: Dispatch)
    ensures d == Return <==> exmode != ExOff && noexmode
    ensures d == NormalCommand <==> exmode == ExOff
    ensures d.ExCommands? ==> (d.vimMode <==> exmode == ExVim)
  {
    if exmode != ExOff then (if noexmode then Return else ExCommands(exmode == ExVim))
    else NormalCommand
  }

  /** One pass of `main_loop(cmdwin, noexmode)` up to running the command. */
  function LoopStep(st: LoopState, w: World, cmdwin: bool, noexmode: bool): (r: (LoopState, Dispatch))
    ensures st.events <= r.0.events
    ensures !r.0.skipRedraw
    ensures r.1 == Return ==> noexmode && r.0.exmode != ExOff
  {
    var s := Autocmds(Latch(st, w, noexmode), w).(mayGarbageCollect := !cmdwin && !noexmode);
    (s, DispatchFor(s.exmode, noexmode))
  }

  /** `n` passes, stopping at a `Return`. */
  function LoopSteps(st: LoopState, ws: seq<World>, cmdwin: bool, noexmode: bool): (r: (LoopState, bool))
    ensures st.events <= r.0.events
    ensures r.1 ==> noexmode
    decreases |ws|
  {
    if ws == [] then (st, false)
    else
      var r := LoopStep(st, ws[0], cmdwin, noexmode);
      if r.1 == Return then (r.0, true) else LoopSteps(r.0, ws[1..], cmdwin, noexmode)
  }

  /** The loop's state, as fields updated in place. */
  class MainLoop {
    const cmdwin: bool
    const noexmode: bool
    var gotInt: bool
    var previousGotInt: bool
    var exmodeActive: ExMode
    var skipRedraw: bool
    var doRedraw: bool
    var lastCursorMoved: Pos
    var lastChangedTick: int
    var lastChangedTickBuf: int
    var mayGarbageCollect: bool
    var events: seq<LoopEvent>

    function State(): LoopState
      reads this
    {
      LoopState(gotInt, previousGotInt, exmodeActive, skipRedraw, doRedraw, lastCursorMoved,
                lastChangedTick, lastChangedTickBuf, mayGarbageCollect, events)
    }

    /** Entering `main_loop`: `previous_got_int` starts false; the globals
        keep the values they have (`g`). */
    constructor(cmdwin: bool, noexmode: bool, g: LoopState)
      ensures this.cmdwin == cmdwin && this.noexmode == noexmode
      ensures State() == g.(previousGotInt := false, events := [])
    {
      this.cmdwin := cmdwin;
      this.noexmode := noexmode;
      gotInt := g.gotInt;
      previousGotInt := false;
      exmodeActive := g.exmode;
      skipRedraw := g.skipRedraw;
      doRedraw := g.doRedraw;
      lastCursorMoved := g.lastCursorMoved;
      lastChangedTick := g.lastChangedTick;
      lastChangedTickBuf := g.lastChangedTickBuf;
      mayGarbageCollect := g.mayGarbageCollect;
      events := [];
    }

    /** One pass of the loop body up to running the command. */
    method Iterate(w: World) returns (d: Dispatch)
      modifies this
      ensures (State(), d) == LoopStep(old(State()), w, cmdwin, noexmode)
    {
      CheckInterrupt(w);
      CheckRedraw(w);
      mayGarbageCollect := !cmdwin && !noexmode;
      if exmodeActive != ExOff {
        if noexmode {
          // end of ":g/pat/visual"
          return Return;
        }
        d := ExCommands(exmodeActive == ExVim);
      } else {
        d := NormalCommand;
      }
    }

    method CheckInterrupt(w: World)
      modifies this
      ensures State() == Latch(old(State()), w, noexmode)
    {
      if w.interrupted {
        gotInt := true;
      }
      if gotInt {
        if noexmode && w.globalBusy && exmodeActive == ExOff && previousGotInt {
          // two CTRL-C in a row: back to Ex mode, keep got_int to abort ":g"
          exmodeActive := ExNormal;
        } else if !w.globalBusy || exmodeActive == ExOff {
          if !w.quitMore {
            events := events + [FlushTypeahead];
          }
          gotInt := false;
        }
        previousGotInt := true;
      } else {
        previousGotInt := false;
      }
    }

    method CheckRedraw(w: World)
      modifies this
      ensures State() == Autocmds(old(State()), w)
    {
      if skipRedraw || exmodeActive != ExOff {
        skipRedraw := false;
      } else if doRedraw || w.stuffEmpty {
        CheckCursorMoved(w);
        CheckTextChanged(w);
        doRedraw := false;
      }
    }

    method CheckCursorMoved(w: World)
      modifies this
      ensures State() == CursorCheck(old(State()), w)
    {
      if !w.finishOp && (w.hasCursorMoved || w.conceal) && lastCursorMoved != w.cursor {
        if w.hasCursorMoved {
          events := events + [CursorMovedEvent];
        }
        lastCursorMoved := w.cursor;
      }
    }

    method CheckTextChanged(w: World)
      modifies this
      ensures State() == TickCheck(old(State()), w)
    {
      if !w.finishOp && w.hasTextChanged && lastChangedTick != w.changedtick {
        if lastChangedTickBuf == w.curbuf {
          events := events + [TextChangedEvent];
        }
        lastChangedTickBuf := w.curbuf;
        lastChangedTick := w.changedtick;
      }
    }

    /** Passes of the loop, one per element of `ws`, until one returns. */
    method RunLoop(ws: seq<World>) returns (returned: bool)
      modifies this
      ensures (State(), returned) == LoopSteps(old(State()), ws, cmdwin, noexmode)
    {
      var i := 0;
      returned := false;
      while i < |ws|
        invariant 0 <= i <= |ws|
        invariant LoopSteps(State(), ws[i..], cmdwin, noexmode) == LoopSteps(old(State()), ws, cmdwin, noexmode)
      {
        assert ws[i..][1..] == ws[i + 1..];
        var d := Iterate(ws[i]);
        if d == Return {
          returned := true;
          return;
        }
        i := i + 1;
      }
    }
  }

  // ---------------------------------------------------------------------
  // Properties

  /** Inside ":g/pat/visual", the first CTRL-C is absorbed (the Normal mode
      command still runs) and a second one in the next pass goes back to Ex
      mode with `got_int` kept, returning to the ":g" to abort it. */
  lemma TwoInterruptsLeaveGlobal(st: LoopState, w1: World, w2: World, cmdwin: bool)
    requires st.exmode == ExOff && !st.previousGotInt
    requires w1.interrupted && w1.globalBusy && w2.interrupted && w2.globalBusy
    ensures var (s1, d1) := LoopStep(st, w1, cmdwin, true);
      var (s2, d2) := LoopStep(s1, w2, cmdwin, true);
      && d1 == NormalCommand && !s1.gotInt && s1.previousGotInt
      && d2 == Return && s2.gotInt && s2.exmode == ExNormal
  {
  }

  /** Outside ":g", CTRL-C never leaves `got_int` set for the next command
      and never changes the mode. */
  lemma InterruptAbsorbedOutsideGlobal(st: LoopState, w: World, cmdwin: bool, noexmode: bool)
    requires !w.globalBusy
    ensures var (s, _) := LoopStep(st, w, cmdwin, noexmode);
      !s.gotInt && s.exmode == st.exmode && s.previousGotInt == (st.gotInt || w.interrupted)
  {
  }

  /** Garbage may be collected while waiting for a key only at the top level:
      not in the command-line window and not under ":g/pat/visual". */
  lemma GarbageCollectAtTopLevel(st: LoopState, w: World, cmdwin: bool, noexmode: bool)
    ensures LoopStep(st, w, cmdwin, noexmode).0.mayGarbageCollect <==> !cmdwin && !noexmode
  {
  }

  /** The position of an event in the order a pass causes them. */
  function Rank(e: LoopEvent): nat
  {
    match e
    case FlushTypeahead => 0
    case CursorMovedEvent => 1
    case TextChangedEvent => 2
  }

  /** Each event at most once, in the order flush, CursorMoved, TextChanged. */
  predicate InPassOrder(evs: seq<LoopEvent>)
  {
    forall i, j :: 0 <= i < j < |evs| ==> Rank(evs[i]) < Rank(evs[j])
  }

  /** The events one pass adds: perhaps a flush, then, when it redraws,
      perhaps CursorMoved and perhaps TextChanged. */
  function PassEvents(st: LoopState, w: World, noexmode: bool): seq<LoopEvent>
  {
    var l := Latch(st, w, noexmode);
    var fl := if l.previousGotInt && !l.gotInt && !w.quitMore then [FlushTypeahead] else [];
    if !Redraws(l, w) then fl
    else
      fl + (if !w.finishOp && w.hasCursorMoved && l.lastCursorMoved != w.cursor then [CursorMovedEvent] else [])
        + (if !w.finishOp && w.hasTextChanged && l.lastChangedTick != w.changedtick
             && l.lastChangedTickBuf == w.curbuf then [TextChangedEvent] else [])
  }

  /** A pass appends exactly its `PassEvents` to the log. */
  lemma StepAppendsPassEvents(st: LoopState, w: World, cmdwin: bool, noexmode: bool)
    ensures LoopStep(st, w, cmdwin, noexmode).0.events == st.events + PassEvents(st, w, noexmode)
  {
    var l := Latch(st, w, noexmode);
    if Redraws(l, w) {
      var c := CursorCheck(l, w);
      assert c.lastChangedTick == l.lastChangedTick && c.lastChangedTickBuf == l.lastChangedTickBuf;
    }
  }

  /** Each pass fires CursorMoved and TextChanged at most once each, and
      CursorMoved before TextChanged. */
  lemma EventsInPassOrder(st: LoopState, w: World, noexmode: bool)
    ensures InPassOrder(PassEvents(st, w, noexmode))
  {
    var added := PassEvents(st, w, noexmode);
    forall i, j | 0 <= i < j < |added| ensures Rank(added[i]) < Rank(added[j]) {
      if added[i] == FlushTypeahead {
        assert added[j] != FlushTypeahead;
      } else {
        assert added[i] == CursorMovedEvent && added[j] == TextChangedEvent;
      }
    }
  }

  /** Once a redrawing pass has looked at the cursor and the change tick, a
      further pass that sees the same cursor, buffer and tick fires neither
      CursorMoved nor TextChanged again. */
  lemma NoRepeatWithoutChange(st: LoopState, w: World, cmdwin: bool, noexmode: bool)
    requires !w.finishOp && w.hasCursorMoved && w.hasTextChanged
    requires Redraws(Latch(st, w, noexmode), w)
    ensures var s1 := LoopStep(st, w, cmdwin, noexmode).0;
      var s2 := LoopStep(s1, w.(interrupted := false), cmdwin, noexmode).0;
      s2.events[..|s1.events|] == s1.events && CursorMovedEvent !in s2.events[|s1.events|..]
      && TextChangedEvent !in s2.events[|s1.events|..]
  {
    var s1 := LoopStep(st, w, cmdwin, noexmode).0;
    var l := Latch(s1, w.(interrupted := false), noexmode);
    var s2 := LoopStep(s1, w.(interrupted := false), cmdwin, noexmode).0;
    var fl := if l.previousGotInt && !l.gotInt && !w.quitMore then [FlushTypeahead] else [];
    assert s2.events == s1.events + fl;
    assert s2.events[|s1.events|..] == fl;
  }

  /** The first change tick seen in a buffer only records it; a later change
      in the same buffer fires TextChanged. */
  lemma TextChangedNeedsKnownBuffer(st: LoopState, w: World, tick: int, cmdwin: bool, noexmode: bool)
    requires !w.finishOp && w.hasTextChanged && !w.hasCursorMoved && !w.interrupted && !st.gotInt
    requires st.exmode == ExOff && !st.skipRedraw && w.stuffEmpty
    requires st.lastChangedTickBuf != w.curbuf && st.lastChangedTick != w.changedtick && tick != w.changedtick
    ensures var s1 := LoopStep(st, w, cmdwin, noexmode).0;
      var s2 := LoopStep(s1, w.(changedtick := tick), cmdwin, noexmode).0;
      && s1.events == st.events
      && s2.events == st.events + [TextChangedEvent]
  {
  }

  /** The dispatch: Ex mode runs Ex commands (Vim-style for `-E`) except under
      ":g/pat/visual", where the pass returns; otherwise a Normal mode command. */
  lemma DispatchRule(st: LoopState, w: World, cmdwin: bool, noexmode: bool)
    ensures var (s, d) := LoopStep(st, w, cmdwin, noexmode);
      && (d == Return <==> s.exmode != ExOff && noexmode)
      && (d == NormalCommand <==> s.exmode == ExOff)
      && (s.exmode != ExOff ==> s.exmode == st.exmode || (noexmode && s.exmode == ExNormal))
  {
  }
}
