/**
 What the writers that take `ptyMu` put on one PTY: the log of a PTY, and the frames it must be made of.
 */
module SessionPty {
  import opened TurnStore

  type Tid = nat

  /**
   One write, as the process sees it. `Cut` is a write that returned an error part way; `Key` is the
   submit keystroke. `turn` is IDLE for a probe.
   */
  datatype PtyEvent =
    | Paste(who: Tid, turn: TurnId, text: string)
    | Key(who: Tid)
    | Esc(who: Tid)
    | Cut(who: Tid)

  datatype Frame =
    | Message(who: Tid, turn: TurnId, text: string)
    | Unsent(who: Tid, turn: TurnId, text: string)
    | Torn(who: Tid)
    | Keystroke(who: Tid)
    | Escape(who: Tid)

  function Bytes(f: Frame): seq<PtyEvent> {
    match f
    case Message(who, turn, text) => [Paste(who, turn, text), Key(who)]
    case Unsent(who, turn, text) => [Paste(who, turn, text), Cut(who)]
    case Torn(who) => [Cut(who)]
    case Keystroke(who) => [Key(who)]
    case Escape(who) => [Esc(who)]
  }

  function Concat(fs: seq<Frame>): seq<PtyEvent> {
    if fs == [] then [] else Concat(fs[..|fs| - 1]) + Bytes(fs[|fs| - 1])
  }

  /** Where the log stands: between frames, inside the frame of one writer, or in a mess. */
  datatype Cursor = Between | Inside(who: Tid) | Mixed

  function Advance(k: Cursor, e: PtyEvent): Cursor {
    match k
    case Mixed => Mixed
    case Between => if e.Paste? then Inside(e.who) else Between
    case Inside(who) => if e.who == who && (e.Key? || e.Cut?) then Between else Mixed
  }

  function Scan(log: seq<PtyEvent>): Cursor {
    if log == [] then Between else Advance(Scan(log[..|log| - 1]), log[|log| - 1])
  }

  lemma ScanAppend(log: seq<PtyEvent>, e: PtyEvent)
    ensures Scan(log + [e]) == Advance(Scan(log), e)
  {
    assert (log + [e])[..|log|] == log;
  }

  lemma ConcatAppend(fs: seq<Frame>, f: Frame)
    ensures Concat(fs + [f]) == Concat(fs) + Bytes(f)
  {
    assert (fs + [f])[..|fs|] == fs;
  }

  /** A paste and the write that ends its frame. */
  lemma ClosePaste(fs: seq<Frame>, front: seq<PtyEvent>, e: PtyEvent) returns (f: Frame)
    requires front != [] && front[|front| - 1].Paste? && e.who == front[|front| - 1].who && (e.Key? || e.Cut?)
    requires Concat(fs) == front[..|front| - 1]
    ensures Concat(fs + [f]) == front + [e]
  {
    var p := front[|front| - 1];
    f := if e.Key? then Message(p.who, p.turn, p.text) else Unsent(p.who, p.turn, p.text);
    ConcatAppend(fs, f);
    assert front + [e] == front[..|front| - 1] + [p, e];
  }

  /** A write that is a frame of its own. */
  lemma LoneWrite(fs: seq<Frame>, e: PtyEvent) returns (f: Frame)
    requires !e.Paste?
    ensures Concat(fs + [f]) == Concat(fs) + [e]
  {
    f := match e case Key(who) => Keystroke(who) case Esc(who) => Escape(who) case _ => Torn(e.who);
    ConcatAppend(fs, f);
  }

  /**
   A log that scans to Between is a concatenation of whole frames, and one that scans to Inside is such
   a concatenation followed by one writer's paste.
   */
  lemma {:induction false} ScannedIsFrames(log: seq<PtyEvent>) returns (fs: seq<Frame>)
    requires Scan(log) != Mixed
    ensures Scan(log) == Between ==> Concat(fs) == log
    ensures Scan(log).Inside? ==>
              && log != [] && log[|log| - 1].Paste? && log[|log| - 1].who == Scan(log).who
              && Concat(fs) == log[..|log| - 1]
  {
    if log == [] {
      fs := [];
    } else {
      var front, e := log[..|log| - 1], log[|log| - 1];
      assert log == front + [e];
      fs := ScannedIsFrames(front);
      if Scan(front).Inside? {
        var f := ClosePaste(fs, front, e);
        fs := fs + [f];
      } else if !e.Paste? {
        var f := LoneWrite(fs, e);
        fs := fs + [f];
      }
    }
  }

  lemma TwoWrites(log: seq<PtyEvent>, a: PtyEvent, b: PtyEvent)
    ensures Scan(log + [a, b]) == Advance(Advance(Scan(log), a), b)
  {
    ScanAppend(log, a);
    ScanAppend(log + [a], b);
    assert log + [a, b] == log + [a] + [b];
  }

  lemma FrameScans(log: seq<PtyEvent>, f: Frame)
    requires Scan(log) == Between
    ensures Scan(log + Bytes(f)) == Between
  {
    match f
    case Message(who, turn, text) => TwoWrites(log, Paste(who, turn, text), Key(who));
    case Unsent(who, turn, text) => TwoWrites(log, Paste(who, turn, text), Cut(who));
    case Torn(who) => ScanAppend(log, Cut(who));
    case Keystroke(who) => ScanAppend(log, Key(who));
    case Escape(who) => ScanAppend(log, Esc(who));
  }

  /** And conversely: every concatenation of whole frames scans to Between. */
  lemma {:induction false} FramesScan(fs: seq<Frame>)
    ensures Scan(Concat(fs)) == Between
  {
    if fs != [] {
      FramesScan(fs[..|fs| - 1]);
      FrameScans(Concat(fs[..|fs| - 1]), fs[|fs| - 1]);
    }
  }
}
