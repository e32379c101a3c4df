/** `getout`: the exit value, and the autocommands fired on the way out —
    BufWinLeave once per buffer shown in a window, BufUnload for loaded
    buffers, VimLeavePre and VimLeave unless the editor is dying. */
module Exit {
  import opened CharUtil
  import opened MainTypes

  /** Tab pages in order, each with its windows in order; a window shows
      buffer number `b` (`Some(b)`) or, after an autocommand closed it, none. */
  type TabPages = seq<seq<Option<nat>>>

  /** Every buffer number shown is below `n`. */
  predicate InRange(tabs: TabPages, n: nat)
  {
    forall i, j :: 0 <= i < |tabs| && 0 <= j < |tabs[i]| && tabs[i][j].Some? ==> tabs[i][j].value < n
  }

  /** The windows of all tab pages, in traversal order. */
  function Windows(tabs: TabPages): seq<Option<nat>>
  {
    if tabs == [] then [] else Windows(tabs[..|tabs| - 1]) + tabs[|tabs| - 1]
  }

  lemma {:induction false} WindowsAppend(a: TabPages, b: TabPages)
    ensures Windows(a + b) == Windows(a) + Windows(b)
    decreases |b|
  {
    if b == [] {
      assert a + b == a;
    } else {
      assert (a + b)[..|a + b| - 1] == a + b[..|b| - 1];
      WindowsAppend(a, b[..|b| - 1]);
    }
  }

  /** A window whose buffer has not had BufWinLeave yet (`b_changedtick != -1`). */
  predicate Unmarked(t: seq<int>, w: Option<nat>)
  {
    w.Some? && w.value < |t| && t[w.value] != -1
  }

  /** The buffer of the first window, in order, whose buffer is unmarked. */
  function FirstUnmarked(ws: seq<Option<nat>>, t: seq<int>): (r: Option<nat>)
    ensures r.Some? ==> Unmarked(t, r) && r in ws
    ensures r.None? <==> forall i :: 0 <= i < |ws| ==> !Unmarked(t, ws[i])
  {
    if ws == [] then None
    else if Unmarked(t, ws[0]) then ws[0]
    else FirstUnmarked(ws[1..], t)
  }

  lemma {:induction false} FirstUnmarkedAppend(a: seq<Option<nat>>, b: seq<Option<nat>>, t: seq<int>)
    ensures FirstUnmarked(a + b, t) == if FirstUnmarked(a, t).Some? then FirstUnmarked(a, t) else FirstUnmarked(b, t)
    decreases |a|
  {
    if a == [] {
      assert a + b == b;
    } else {
      assert (a + b)[1..] == a[1..] + b;
      FirstUnmarkedAppend(a[1..], b, t);
    }
  }

  /** The number of buffers not yet marked. */
  function UnmarkedCount(t: seq<int>): nat
  {
    if t == [] then 0 else UnmarkedCount(t[..|t| - 1]) + (if t[|t| - 1] != -1 then 1 else 0)
  }

  lemma {:induction false} MarkDecreases(t: seq<int>, b: nat)
    requires b < |t| && t[b] != -1
    ensures UnmarkedCount(t[b := -1]) == UnmarkedCount(t) - 1
    decreases |t|
  {
    var u := t[b := -1];
    assert u[..|u| - 1] == if b < |t| - 1 then t[..|t| - 1][b := -1] else t[..|t| - 1];
    if b < |t| - 1 {
      MarkDecreases(t[..|t| - 1], b);
    }
  }

  /** The buffers that get BufWinLeave, in order: after each event the walk
      starts again from the first tab page and takes the first window whose
      buffer is not marked yet. */
  function LeaveOrder(tabs: TabPages, t: seq<int>): (r: seq<nat>)
    ensures |r| <= UnmarkedCount(t)
    ensures r == [] <==> forall i :: 0 <= i < |Windows(tabs)| ==> !Unmarked(t, Windows(tabs)[i])
    decreases UnmarkedCount(t)
  {
    match FirstUnmarked(Windows(tabs), t)
    case None => []
    case Some(b) =>
      MarkDecreases(t, b);
      [b] + LeaveOrder(tabs, t[b := -1])
  }

  /** Every BufWinLeave is for a buffer shown in a window that was not marked. */
  lemma {:induction false} LeaveSound(tabs: TabPages, t: seq<int>)
    ensures forall e :: e in LeaveOrder(tabs, t) ==> e < |t| && t[e] != -1 && Some(e) in Windows(tabs)
    decreases UnmarkedCount(t)
  {
    match FirstUnmarked(Windows(tabs), t)
    case None =>
    case Some(b) =>
      MarkDecreases(t, b);
      LeaveSound(tabs, t[b := -1]);
  }

  /** No buffer number occurs twice. */
  predicate Distinct(bs: seq<nat>)
  {
    forall i, j :: 0 <= i < j < |bs| ==> bs[i] != bs[j]
  }

  /** BufWinLeave fires at most once per buffer. */
  lemma {:induction false} LeaveOncePerBuffer(tabs: TabPages, t: seq<int>)
    ensures Distinct(LeaveOrder(tabs, t))
    decreases UnmarkedCount(t)
  {
    match FirstUnmarked(Windows(tabs), t)
    case None =>
    case Some(b) =>
      MarkDecreases(t, b);
      var rest := LeaveOrder(tabs, t[b := -1]);
      LeaveOncePerBuffer(tabs, t[b := -1]);
      LeaveSound(tabs, t[b := -1]);
      assert b !in rest;
      var l := [b] + rest;
      assert LeaveOrder(tabs, t) == l;
      forall i, j | 0 <= i < j < |l| ensures l[i] != l[j] {
        assert l[j] == rest[j - 1] && rest[j - 1] in rest;
        if i > 0 {
          assert l[i] == rest[i - 1];
        }
      }
  }

  /** Every buffer shown in some window and not marked gets BufWinLeave. */
  lemma {:induction false} LeaveComplete(tabs: TabPages, t: seq<int>, b: nat)
    requires Some(b) in Windows(tabs) && b < |t| && t[b] != -1
    ensures b in LeaveOrder(tabs, t)
    decreases UnmarkedCount(t)
  {
    var i :| 0 <= i < |Windows(tabs)| && Windows(tabs)[i] == Some(b);
    assert Unmarked(t, Windows(tabs)[i]);
    match FirstUnmarked(Windows(tabs), t)
    case None =>
    case Some(c) =>
      MarkDecreases(t, c);
      if c != b {
        LeaveComplete(tabs, t[c := -1], b);
      }
  }

  /** The window found in tab page `tp` at `wi` holds the first unmarked
      buffer of the whole walk when every earlier window's buffer is marked. */
  lemma FoundFirst(tabs: TabPages, tp: nat, wi: nat, t: seq<int>)
    requires tp < |tabs| && wi < |tabs[tp]|
    requires FirstUnmarked(Windows(tabs[..tp]), t).None?
    requires FirstUnmarked(tabs[tp][..wi], t).None?
    requires Unmarked(t, tabs[tp][wi])
    ensures FirstUnmarked(Windows(tabs), t) == tabs[tp][wi]
  {
    FoundInTab(tabs[tp], wi, t);
    assert tabs == tabs[..tp] + [tabs[tp]] + tabs[tp + 1..];
    WindowsAppend(tabs[..tp] + [tabs[tp]], tabs[tp + 1..]);
    WindowsAppend(tabs[..tp], [tabs[tp]]);
    assert Windows([tabs[tp]]) == tabs[tp] by {
      assert [tabs[tp]][..0] == [];
    }
    FirstUnmarkedAppend(Windows(tabs[..tp]), tabs[tp], t);
    FirstUnmarkedAppend(Windows(tabs[..tp]) + tabs[tp], Windows(tabs[tp + 1..]), t);
  }

  /** Within one tab page: the window at `wi` is the first unmarked one. */
  lemma FoundInTab(ws: seq<Option<nat>>, wi: nat, t: seq<int>)
    requires wi < |ws|
    requires FirstUnmarked(ws[..wi], t).None?
    requires Unmarked(t, ws[wi])
    ensures FirstUnmarked(ws, t) == ws[wi]
  {
    assert ws == ws[..wi] + ws[wi..];
    FirstUnmarkedAppend(ws[..wi], ws[wi..], t);
  }

  /** The BufWinLeave walk of `getout` over the tab pages, marking each buffer
      it fires for by setting its change tick (`ticks[b]`) to -1 and then
      starting again from the first tab page. */
  method BufWinLeaveAll(tabs: TabPages, ticks: array<int>) returns (events: seq<nat>)
    requires InRange(tabs, ticks.Length)
    modifies ticks
    ensures events == LeaveOrder(tabs, old(ticks[..]))
    ensures forall b :: 0 <= b < ticks.Length ==> ticks[b] == if b in events then -1 else old(ticks[b])
  {
    events := [];
    var tp := 0;
    while tp < |tabs|
      invariant 0 <= tp <= |tabs|
      invariant events + LeaveOrder(tabs, ticks[..]) == LeaveOrder(tabs, old(ticks[..]))
      invariant forall b :: 0 <= b < ticks.Length ==> ticks[b] == if b in events then -1 else old(ticks[b])
      invariant FirstUnmarked(Windows(tabs[..tp]), ticks[..]).None?
      decreases UnmarkedCount(ticks[..]), |tabs| - tp
    {
      var wins := tabs[tp];
      ghost var t := ticks[..];
      var wi := FirstUnmarkedWindow(wins, ticks);
      if wi < |wins| {
        var b := wins[wi].value;
        FoundFirst(tabs, tp, wi, t);
        MarkStep(tabs, t, b, events);
        events := events + [b];
        ticks[b] := -1;
        assert ticks[..] == t[b := -1];
        tp := 0;
      } else {
        assert wins[..wi] == wins;
        TabDone(tabs, tp, t);
        tp := tp + 1;
      }
    }
    assert tabs[..tp] == tabs;
  }

  /** The first window of one tab page whose buffer has not had BufWinLeave
      yet, or `|wins|` when there is none. */
  method FirstUnmarkedWindow(wins: seq<Option<nat>>, ticks: array<int>) returns (wi: nat)
    requires forall j :: 0 <= j < |wins| && wins[j].Some? ==> wins[j].value < ticks.Length
    ensures wi <= |wins|
    ensures FirstUnmarked(wins[..wi], ticks[..]).None?
    ensures wi < |wins| ==> Unmarked(ticks[..], wins[wi])
  {
    wi := 0;
    while wi < |wins| && !(wins[wi].Some? && ticks[wins[wi].value] != -1)
      invariant 0 <= wi <= |wins|
      invariant FirstUnmarked(wins[..wi], ticks[..]).None?
    {
      assert wins[..wi + 1] == wins[..wi] + [wins[wi]];
      FirstUnmarkedAppend(wins[..wi], [wins[wi]], ticks[..]);
      wi := wi + 1;
    }
  }

  /** Marking the first unmarked buffer moves it from the walk still to do
      to the events done. */
  lemma MarkStep(tabs: TabPages, t: seq<int>, b: nat, events: seq<nat>)
    requires FirstUnmarked(Windows(tabs), t) == Some(b)
    ensures LeaveOrder(tabs, t) == [b] + LeaveOrder(tabs, t[b := -1])
    ensures UnmarkedCount(t[b := -1]) < UnmarkedCount(t)
    ensures (forall c :: 0 <= c < |t| && c in events ==> t[c] == -1) ==> b !in events
  {
    MarkDecreases(t, b);
  }

  /** A tab page without unmarked buffers extends the part of the walk done. */
  lemma TabDone(tabs: TabPages, tp: nat, t: seq<int>)
    requires tp < |tabs|
    requires FirstUnmarked(Windows(tabs[..tp]), t).None?
    requires FirstUnmarked(tabs[tp], t).None?
    ensures FirstUnmarked(Windows(tabs[..tp + 1]), t).None?
  {
    assert tabs[..tp + 1] == tabs[..tp] + [tabs[tp]];
    WindowsAppend(tabs[..tp], [tabs[tp]]);
    assert Windows([tabs[tp]]) == tabs[tp] by {
      assert [tabs[tp]][..0] == [];
    }
    FirstUnmarkedAppend(Windows(tabs[..tp]), tabs[tp], t);
  }

  // ---------------------------------------------------------------------
  // BufUnload

  /** A buffer in the buffer list: its number and whether it is loaded
      (`b_ml.ml_mfp != NULL`). */
  datatype Buffer = Buffer(id: nat, loaded: bool)

  /** The buffers that get BufUnload, in list order: every loaded buffer, up to
      one whose autocommands delete it (`deletes`), after which the walk stops. */
  function UnloadOrder(bufs: seq<Buffer>, deletes: set<nat>): (r: seq<nat>)
    ensures |r| <= |bufs|
  {
    if bufs == [] then []
    else if bufs[0].loaded then
      [bufs[0].id] + (if bufs[0].id in deletes then [] else UnloadOrder(bufs[1..], deletes))
    else UnloadOrder(bufs[1..], deletes)
  }

  /** The ids of the loaded buffers, in list order. */
  function LoadedIds(bufs: seq<Buffer>): seq<nat>
  {
    if bufs == [] then [] else (if bufs[0].loaded then [bufs[0].id] else []) + LoadedIds(bufs[1..])
  }

  /** A loaded buffer that its BufUnload autocommands delete. */
  predicate Deleting(b: Buffer, deletes: set<nat>)
  {
    b.loaded && b.id in deletes
  }

  /** BufUnload goes to the loaded buffers of `bufs[..k]` in list order, where
      `k` is one past the first loaded buffer that its autocommands delete, or
      the whole list when there is none. */
  lemma {:induction false} UnloadStopsAtDeleted(bufs: seq<Buffer>, deletes: set<nat>, k: nat)
    requires k <= |bufs|
    requires forall i :: 0 <= i < k - 1 ==> !Deleting(bufs[i], deletes)
    requires k < |bufs| ==> k > 0 && Deleting(bufs[k - 1], deletes)
    ensures UnloadOrder(bufs, deletes) == LoadedIds(bufs[..k])
    decreases k
  {
    if bufs != [] {
      if Deleting(bufs[0], deletes) {
        assert bufs[..k] == [bufs[0]];
      } else {
        assert bufs[..k][1..] == bufs[1..][..k - 1];
        UnloadStopsAtDeleted(bufs[1..], deletes, k - 1);
      }
    }
  }

  /** The BufUnload walk over the buffer list. */
  method BufUnloadAll(bufs: seq<Buffer>, deletes: set<nat>) returns (events: seq<nat>)
    ensures events == UnloadOrder(bufs, deletes)
  {
    events := [];
    var i := 0;
    while i < |bufs|
      invariant 0 <= i <= |bufs|
      invariant events + UnloadOrder(bufs[i..], deletes) == UnloadOrder(bufs, deletes)
    {
      assert bufs[i..][1..] == bufs[i + 1..];
      if bufs[i].loaded {
        events := events + [bufs[i].id];
        if bufs[i].id in deletes {
          // the autocommands deleted the buffer: stop
          return;
        }
      }
      i := i + 1;
    }
  }

  /** BufUnload goes only to loaded buffers, in list order; when no
      autocommand deletes its buffer, every loaded buffer gets it. */
  lemma {:induction false} UnloadLoaded(bufs: seq<Buffer>, deletes: set<nat>)
    ensures forall e :: e in UnloadOrder(bufs, deletes) ==> exists i :: 0 <= i < |bufs| && bufs[i].loaded && bufs[i].id == e
    ensures (forall i :: 0 <= i < |bufs| && bufs[i].loaded ==> bufs[i].id !in deletes) ==>
      forall i :: 0 <= i < |bufs| && bufs[i].loaded ==> bufs[i].id in UnloadOrder(bufs, deletes)
    decreases |bufs|
  {
    if bufs != [] {
      UnloadLoaded(bufs[1..], deletes);
      forall e | e in UnloadOrder(bufs[1..], deletes)
        ensures exists i :: 0 <= i < |bufs| && bufs[i].loaded && bufs[i].id == e
      {
        var i :| 0 <= i < |bufs[1..]| && bufs[1..][i].loaded && bufs[1..][i].id == e;
        assert bufs[i + 1] == bufs[1..][i];
      }
      if forall i :: 0 <= i < |bufs| && bufs[i].loaded ==> bufs[i].id !in deletes {
        forall i | 0 <= i < |bufs| && bufs[i].loaded ensures bufs[i].id in UnloadOrder(bufs, deletes) {
          if i > 0 {
            assert bufs[i] == bufs[1..][i - 1];
          }
        }
      }
    }
  }

  // ---------------------------------------------------------------------
  // The exit sequence

  datatype ExitEvent =
    | BufWinLeave(buf: nat)
    | BufUnload(buf: nat)
    | VimLeavePre
    | WriteViminfo
    | VimLeave
    | WaitReturn
    | GarbageCollect

  function LeaveEvents(bs: seq<nat>): (r: seq<ExitEvent>)
    ensures |r| == |bs| && forall i :: 0 <= i < |bs| ==> r[i] == BufWinLeave(bs[i])
  {
    if bs == [] then [] else [BufWinLeave(bs[0])] + LeaveEvents(bs[1..])
  }

  function UnloadEvents(bs: seq<nat>): (r: seq<ExitEvent>)
    ensures |r| == |bs| && forall i :: 0 <= i < |bs| ==> r[i] == BufUnload(bs[i])
  {
    if bs == [] then [] else [BufUnload(bs[0])] + UnloadEvents(bs[1..])
  }

  /** The events of `getout` in order. `dying` is `v:dying`, `viminfo` says
      that 'viminfo' is not empty, `didEmsg` that an error message was given,
      `gcAtExit` that garbage collection at exit was asked for. */
  function ExitLog(dying: int, viminfo: bool, didEmsg: bool, gcAtExit: bool,
                   leaves: seq<nat>, unloads: seq<nat>): (r: seq<ExitEvent>)
    ensures dying <= 1 ==> |r| > |leaves| + |unloads|
    ensures dying <= 1 ==> forall i :: 0 <= i < |leaves| ==> r[i] == BufWinLeave(leaves[i])
    ensures dying <= 1 ==> forall i :: 0 <= i < |unloads| ==> r[|leaves| + i] == BufUnload(unloads[i])
    ensures forall i :: (if dying <= 1 then |leaves| + |unloads| else 0) <= i < |r| ==>
      !r[i].BufWinLeave? && !r[i].BufUnload?
  {
    (if dying <= 1 then LeaveEvents(leaves) + UnloadEvents(unloads) + [VimLeavePre] else [])
    + ExitTail(dying, viminfo, didEmsg, gcAtExit)
  }

  /** The events after VimLeavePre. */
  function ExitTail(dying: int, viminfo: bool, didEmsg: bool, gcAtExit: bool): seq<ExitEvent>
  {
    (if viminfo then [WriteViminfo] else [])
    + (if dying <= 1 then [VimLeave] else [])
    + (if didEmsg then [WaitReturn] else [])
    + (if gcAtExit then [GarbageCollect] else [])
  }

  /** `getout(exitval)`: the exit code (raised by `ex_exitval` in Ex mode, as
      POSIX asks) and the events, with the BufWinLeave marks left in `ticks`. */
  method Getout(exitval: int, exmode: ExMode, exExitval: int, dying: int, viminfo: bool, didEmsg: bool,
                gcAtExit: bool, tabs: TabPages, ticks: array<int>, bufs: seq<Buffer>, deletes: set<nat>)
    returns (log: seq<ExitEvent>, code: int)
    requires InRange(tabs, ticks.Length)
    modifies ticks
    ensures code == if exmode != ExOff then exitval + exExitval else exitval
    ensures dying <= 1 ==> log == ExitLog(dying, viminfo, didEmsg, gcAtExit,
      LeaveOrder(tabs, old(ticks[..])), UnloadOrder(bufs, deletes))
    ensures dying <= 1 ==> forall b :: 0 <= b < ticks.Length ==>
      ticks[b] == if b in LeaveOrder(tabs, old(ticks[..])) then -1 else old(ticks[b])
    ensures dying > 1 ==> log == ExitLog(dying, viminfo, didEmsg, gcAtExit, [], []) && ticks[..] == old(ticks[..])
  {
    code := exitval;
    if exmode != ExOff {
      code := code + exExitval;
    }
    var head: seq<ExitEvent> := [];
    if dying <= 1 {
      var leaves := BufWinLeaveAll(tabs, ticks);
      var unloads := BufUnloadAll(bufs, deletes);
      head := LeaveEvents(leaves) + UnloadEvents(unloads) + [VimLeavePre];
    }
    var tail: seq<ExitEvent> := [];
    if viminfo {
      tail := tail + [WriteViminfo];
    }
    if dying <= 1 {
      tail := tail + [VimLeave];
    }
    if didEmsg {
      tail := tail + [WaitReturn];
    }
    if gcAtExit {
      tail := tail + [GarbageCollect];
    }
    assert tail == ExitTail(dying, viminfo, didEmsg, gcAtExit);
    log := head + tail;
  }

  /** VimLeavePre and VimLeave fire exactly when `v:dying` is at most 1, the
      first before the second, and no buffer autocommand fires otherwise. */
  lemma LeaveEventsOnlyWhenNotDying(dying: int, viminfo: bool, didEmsg: bool, gcAtExit: bool,
                                    leaves: seq<nat>, unloads: seq<nat>)
    ensures var log := ExitLog(dying, viminfo, didEmsg, gcAtExit, leaves, unloads);
      && (VimLeavePre in log <==> dying <= 1)
      && (VimLeave in log <==> dying <= 1)
      && (dying > 1 ==> forall e :: e in log ==> !e.BufWinLeave? && !e.BufUnload?)
      && (dying <= 1 ==> log[|leaves| + |unloads|] == VimLeavePre && log[|log| - 1 - (if didEmsg then 1 else 0) - (if gcAtExit then 1 else 0)] == VimLeave)
  {
    var log := ExitLog(dying, viminfo, didEmsg, gcAtExit, leaves, unloads);
    if dying <= 1 {
      assert VimLeavePre == log[|leaves| + |unloads|];
    }
  }
}
