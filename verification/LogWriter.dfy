/** The writer of the event log. What the JVM answers about a frame, its line table and the names of
    its method, comes with the frame; None stands for an error. */
module LogWriters {
  import opened Bytes
  import opened Options
  import opened LogFormat
  import opened LineTables

  datatype Names = Names(file: seq<byte>, klass: seq<byte>, name: seq<byte>)
  datatype Frame = Frame(bci: int, methodId: int, table: Option<seq<Entry>>, names: Option<Names>)

  /** `num` is negative when the stack could not be walked; then there are no frames. `tid` is the id in
      the thread's bucket, if the sample has one. */
  datatype Trace = Trace(num: int, env: int, tid: Option<int>, frames: seq<Frame>)

  predicate FrameFits(f: Frame) {
    && Signed(f.bci, 4) && Signed(f.methodId, 8)
    && (f.table.Some? ==> Increasing(f.table.value) && forall e | e in f.table.value :: Signed(e.line, 4))
    && (f.names.Some? ==> Text(f.names.value.file) && Text(f.names.value.klass) && Text(f.names.value.name))
  }

  predicate TraceFits(t: Trace) {
    && Signed(t.num, 4) && Signed(t.env, 8) && (t.tid.Some? ==> Signed(t.tid.value, 8))
    && |t.frames| == (if t.num < 0 then 0 else t.num) && forall f | f in t.frames :: FrameFits(f)
  }

  // ---- What a log is to show --------------------------------------------------------------------

  /** The line of a bytecode index, as far as the JVM can tell it. */
  ghost predicate IsLine(line: int, bci: int, table: Option<seq<Entry>>) {
    match table
    case None => line == -100
    case Some(entries) =>
      if entries == [] then line == -101
      else if forall e | e in entries :: e.start > bci then line == -102
      else exists e :: e in entries && e.start <= bci && line == e.line && forall d | d in entries && d.start <= bci :: d.start <= e.start
  }

  /** A frame with a positive bytecode index is logged with its line, any other one without. */
  ghost predicate ShowsFrame(e: Event, f: Frame) {
    if f.bci > 0 then e.FrameFull? && e.bci == f.bci && e.methodId == f.methodId && IsLine(e.line, f.bci, f.table)
    else e == FrameBci(f.bci, f.methodId)
  }

  ghost predicate ShowsFrames(es: seq<Event>, frames: seq<Frame>) {
    |es| == |frames| && forall i | 0 <= i < |es| :: ShowsFrame(es[i], frames[i])
  }

  /** A trace begins with its number and its thread, by the bucket if there is one, and has one event for
      each frame. */
  ghost predicate ShowsTrace(es: seq<Event>, t: Trace) {
    |es| > 0 && es[0] == TraceStart(t.num, if t.tid.Some? then t.tid.value else t.env) && ShowsFrames(es[1..], t.frames)
  }

  ghost predicate Shows(es: seq<Event>, traces: seq<Trace>) {
    if traces == [] then es == []
    else
      var n := |traces| - 1;
      var k := |es| - 1 - |traces[n].frames|;
      k >= 0 && Shows(es[..k], traces[..n]) && ShowsTrace(es[k..], traces[n])
  }

  /** The events other than those that give names. */
  function Nameless(es: seq<Event>): seq<Event> {
    if es == [] then []
    else Nameless(es[..|es| - 1]) + if es[|es| - 1].NewMethod? then [] else [es[|es| - 1]]
  }

  // ---- Which events a trace gives ---------------------------------------------------------------

  function FrameEvent(f: Frame): Event {
    if f.bci > 0 then FrameFull(f.bci, LineFor(f.bci, f.table), f.methodId) else FrameBci(f.bci, f.methodId)
  }

  function NewMethodOf(f: Frame): Event
    requires f.names.Some?
  {
    NewMethod(f.methodId, f.names.value.file, f.names.value.klass, f.names.value.name)
  }

  /** A frame, and its method's names when it is the first of that method and they can be had. */
  function FrameEvents(known: set<int>, f: Frame): seq<Event> {
    [FrameEvent(f)] + if f.methodId !in known && f.names.Some? then [NewMethodOf(f)] else []
  }

  function Methods(frames: seq<Frame>): set<int> { set f | f in frames :: f.methodId }

  function FramesEvents(known: set<int>, frames: seq<Frame>): seq<Event> {
    if frames == [] then []
    else
      var n := |frames| - 1;
      FramesEvents(known, frames[..n]) + FrameEvents(known + Methods(frames[..n]), frames[n])
  }

  function Thread(t: Trace): int { if t.tid.Some? then t.tid.value else t.env }

  function TraceEvents(known: set<int>, t: Trace): seq<Event> {
    [TraceStart(t.num, Thread(t))] + FramesEvents(known, t.frames)
  }

  lemma FramesMore(known: set<int>, frames: seq<Frame>, i: nat)
    requires i < |frames|
    ensures FramesEvents(known, frames[..i + 1])
            == FramesEvents(known, frames[..i]) + FrameEvents(known + Methods(frames[..i]), frames[i])
    ensures Methods(frames[..i + 1]) == Methods(frames[..i]) + {frames[i].methodId}
  {
    hide FrameEvents;
    assert frames[..i + 1][..i] == frames[..i] && frames[..i + 1] == frames[..i] + [frames[i]];
  }

  lemma LineFits(f: Frame)
    requires FrameFits(f)
    ensures Signed(LineFor(f.bci, f.table), 4)
  {
    assert Power256(3) == 256 * Power256(2) && Power256(2) == 256 * Power256(1) && Power256(1) == 256;
    if f.bci > 0 && f.table.Some? {
      StartedSplits(f.table.value, f.bci);
      var n := Started(f.table.value, f.bci);
      assert 0 < n ==> f.table.value[n - 1] in f.table.value;
    }
  }

  lemma EventsFit(f: Frame)
    requires FrameFits(f)
    ensures Fits(FrameEvent(f)) && (f.names.Some? ==> Fits(NewMethodOf(f)))
  {
    LineFits(f);
  }

  lemma StartFits(t: Trace)
    requires TraceFits(t)
    ensures Fits(TraceStart(t.num, Thread(t)))
  {
  }

  lemma EncodeMore(es: seq<Event>, e: Event)
    requires AllFit(es) && Fits(e)
    ensures AllFit(es + [e]) && Encode(es + [e]) == Encode(es) + EncodeOne(e)
  {
    hide EncodeOne, Fits;
    assert (es + [e])[..|es|] == es;
  }

  class LogWriter {
    const little: bool              // the byte order of the host
    var output: seq<byte>
    var knownMethods: set<int>
    ghost var events: seq<Event>    // what has been written

    ghost predicate Valid()
      reads this
    {
      AllFit(events) && output == Encode(events)
    }

    constructor (little: bool)
      ensures Valid() && events == [] && knownMethods == {} && this.little == little
    {
      this.little := little;
      output, knownMethods, events := [], {}, [];
    }

    /** The bytes of a value from the host's memory, in network order whatever the host. */
    method WriteValue(v: int, n: nat)
      requires n > 0 && Signed(v, n)
      modifies this`output
      ensures output == old(output) + Number(v, n)
    {
      var u := Unsigned(v, n);
      var data := Image(u, n, little);
      LittleIsReversed(u, n);
      if little {
        var i: int := n - 1;
        while i >= 0
          invariant -1 <= i < n
          invariant output == old(output) + Big(u, n)[..n - 1 - i]
        {
          output := output + [data[i]];
          i := i - 1;
        }
      } else {
        output := output + data;
      }
    }

    method WriteWithSize(s: seq<byte>)
      requires Text(s)
      modifies this`output
      ensures output == old(output) + Sized(s)
    {
      WriteValue(|s|, 4);
      output := output + s;
    }

    method RecordTraceStart(frames: int, thread: int)
      requires Valid() && Fits(TraceStart(frames, thread))
      modifies this`output, this`events
      ensures Valid() && events == old(events) + [TraceStart(frames, thread)]
    {
      hide Number, Encode;
      EncodeMore(events, TraceStart(frames, thread));
      output := output + [TRACE_START];
      WriteValue(frames, 4);
      WriteValue(thread, 8);
      events := events + [TraceStart(frames, thread)];
    }

    method RecordFrameFull(bci: int, line: int, methodId: int)
      requires Valid() && Fits(FrameFull(bci, line, methodId))
      modifies this`output, this`events
      ensures Valid() && events == old(events) + [FrameFull(bci, line, methodId)]
    {
      hide Number, Encode;
      EncodeMore(events, FrameFull(bci, line, methodId));
      output := output + [FRAME_FULL];
      WriteValue(bci, 4);
      WriteValue(line, 4);
      WriteValue(methodId, 8);
      events := events + [FrameFull(bci, line, methodId)];
    }

    method RecordFrameBci(bci: int, methodId: int)
      requires Valid() && Fits(FrameBci(bci, methodId))
      modifies this`output, this`events
      ensures Valid() && events == old(events) + [FrameBci(bci, methodId)]
    {
      hide Number, Encode;
      EncodeMore(events, FrameBci(bci, methodId));
      output := output + [FRAME_BCI_ONLY];
      WriteValue(bci, 4);
      WriteValue(methodId, 8);
      events := events + [FrameBci(bci, methodId)];
    }

    method RecordNewMethod(methodId: int, file: seq<byte>, klass: seq<byte>, name: seq<byte>)
      requires Valid() && Fits(NewMethod(methodId, file, klass, name))
      modifies this`output, this`events
      ensures Valid() && events == old(events) + [NewMethod(methodId, file, klass, name)]
    {
      hide Number, Sized, Encode;
      EncodeMore(events, NewMethod(methodId, file, klass, name));
      output := output + [NEW_METHOD];
      WriteValue(methodId, 8);
      WriteWithSize(file);
      WriteWithSize(klass);
      WriteWithSize(name);
      events := events + [NewMethod(methodId, file, klass, name)];
    }

    /** The method is known from now on, also when its names cannot be had. */
    method InspectMethod(f: Frame)
      requires Valid() && FrameFits(f)
      modifies this
      ensures Valid() && knownMethods == old(knownMethods) + {f.methodId}
      ensures old(events) <= events
      ensures [FrameEvent(f)] + events[|old(events)|..] == FrameEvents(old(knownMethods), f)
    {
      hide Encode;
      EventsFit(f);
      if f.methodId in knownMethods {
        return;
      }
      knownMethods := knownMethods + {f.methodId};
      if f.names.Some? {
        RecordNewMethod(f.methodId, f.names.value.file, f.names.value.klass, f.names.value.name);
      }
    }

    method RecordFrame(f: Frame)
      requires Valid() && FrameFits(f)
      modifies this
      ensures Valid() && knownMethods == old(knownMethods) + {f.methodId}
      ensures events == old(events) + FrameEvents(old(knownMethods), f)
    {
      hide Encode, FrameEvents, Fits;
      EventsFit(f);
      if f.bci > 0 {
        var line := LineNumber(f.bci, f.table);
        RecordFrameFull(f.bci, line, f.methodId);
      } else {
        RecordFrameBci(f.bci, f.methodId);
      }
      assert events == old(events) + [FrameEvent(f)];
      label Inspecting:
      InspectMethod(f);
      assert events == old@Inspecting(events) + events[|old@Inspecting(events)|..];
    }

    method Record(t: Trace)
      requires Valid() && TraceFits(t)
      modifies this
      ensures Valid() && knownMethods == old(knownMethods) + Methods(t.frames)
      ensures events == old(events) + TraceEvents(old(knownMethods), t)
    {
      hide Signed, Encode, FramesEvents, FrameFits, Fits, Methods, AllFit;
      StartFits(t);
      var threadId := t.env;
      if t.tid.Some? {
        threadId := t.tid.value;
      }
      RecordTraceStart(t.num, threadId);
      RecordFrames(t.num, t.frames);
    }

    method RecordFrames(num: int, frames: seq<Frame>)
      requires Valid() && |frames| == (if num < 0 then 0 else num) && forall f | f in frames :: FrameFits(f)
      modifies this
      ensures Valid() && knownMethods == old(knownMethods) + Methods(frames)
      ensures events == old(events) + FramesEvents(old(knownMethods), frames)
    {
      hide Encode, FrameEvents, FrameFits, Fits;
      assert FramesEvents(old(knownMethods), frames[..0]) == [] && Methods(frames[..0]) == {};
      hide FramesEvents, Methods;
      var i: int := 0;
      while i < num
        invariant 0 <= i <= |frames|
        invariant Valid() && knownMethods == old(knownMethods) + Methods(frames[..i])
        invariant events == old(events) + FramesEvents(old(knownMethods), frames[..i])
      {
        assert frames[i] in frames;
        RecordFrame(frames[i]);
        FramesMore(old(knownMethods), frames, i);
        i := i + 1;
      }
      assert frames[..i] == frames;
    }
  }

  // ---- Whole logs -------------------------------------------------------------------------------

  function MethodsOf(traces: seq<Trace>): set<int> {
    if traces == [] then {} else MethodsOf(traces[..|traces| - 1]) + Methods(traces[|traces| - 1].frames)
  }

  function LogEvents(traces: seq<Trace>): seq<Event> {
    if traces == [] then []
    else
      var n := |traces| - 1;
      LogEvents(traces[..n]) + TraceEvents(MethodsOf(traces[..n]), traces[n])
  }

  /** Whatever the byte order of the host, the bytes of a log decode to exactly the events of its traces. */
  method WriteLog(little: bool, traces: seq<Trace>) returns (output: seq<byte>)
    requires forall t | t in traces :: TraceFits(t)
    ensures Decode(output) == Some(LogEvents(traces)) && Shows(Nameless(LogEvents(traces)), traces)
  {
    LogShows(traces);
    hide Encode, Decode, Shows, Nameless, TraceEvents, TraceFits, AllFit;
    var w := new LogWriter(little);
    var n := 0;
    while n < |traces|
      invariant 0 <= n <= |traces| && fresh(w) && w.Valid()
      invariant w.events == LogEvents(traces[..n]) && w.knownMethods == MethodsOf(traces[..n])
    {
      assert traces[n] in traces;
      w.Record(traces[n]);
      assert traces[..n + 1][..n] == traces[..n];
      n := n + 1;
    }
    assert traces[..n] == traces;
    output := w.output;
    RoundTrip(w.events);
  }

  lemma {:induction false} NamelessJoined(es: seq<Event>, fs: seq<Event>)
    ensures Nameless(es + fs) == Nameless(es) + Nameless(fs)
  {
    if fs == [] {
      assert es + fs == es;
    } else {
      NamelessJoined(es, fs[..|fs| - 1]);
      assert (es + fs)[..|es + fs| - 1] == es + fs[..|fs| - 1];
    }
  }

  lemma FrameShown(f: Frame)
    requires FrameFits(f)
    ensures ShowsFrame(FrameEvent(f), f)
  {
    if f.bci > 0 && f.table.Some? {
      LineIsLatest(f.table.value, f.bci);
      if !(forall e | e in f.table.value :: e.start > f.bci) {
        var e :| e in f.table.value && e.start <= f.bci;
        var latest := Latest(f.table.value, f.bci, e);
      }
    }
  }

  lemma Latest(table: seq<Entry>, bci: int, e: Entry) returns (latest: Entry)
    requires Increasing(table) && e in table && e.start <= bci
    ensures latest in table && latest.start <= bci && forall d | d in table && d.start <= bci :: d.start <= latest.start
  {
    StartedSplits(table, bci);
    var n := Started(table, bci);
    hide Started;
    var i :| 0 <= i < |table| && table[i] == e;
    latest := table[n - 1];
    forall d | d in table && d.start <= bci
      ensures d.start <= latest.start
    {
      var j :| 0 <= j < |table| && table[j] == d;
      assert j < n;
    }
  }

  lemma {:induction false} FramesShown(known: set<int>, frames: seq<Frame>)
    requires forall f | f in frames :: FrameFits(f)
    ensures ShowsFrames(Nameless(FramesEvents(known, frames)), frames)
  {
    hide FrameFits, ShowsFrame, FrameEvents, Nameless, Methods;
    if frames != [] {
      var n := |frames| - 1;
      FramesShown(known, frames[..n]);
      var before := FramesEvents(known, frames[..n]);
      NamelessJoined(before, FrameEvents(known + Methods(frames[..n]), frames[n]));
      OneFrameShown(known + Methods(frames[..n]), frames[n]);
    } else {
      NothingNameless();
    }
  }

  lemma NothingNameless()
    ensures Nameless([]) == []
  {
  }

  lemma OneFrameShown(known: set<int>, f: Frame)
    requires FrameFits(f)
    ensures Nameless(FrameEvents(known, f)) == [FrameEvent(f)] && ShowsFrame(FrameEvent(f), f)
  {
    FrameShown(f);
    var es := FrameEvents(known, f);
    NamelessStart(FrameEvent(f));
    assert |es| == 2 ==> es[..1] == [FrameEvent(f)];
  }

  /** In a log of any traces, the names apart, each trace begins with its number and thread and goes on with
      one event per frame, in order, with the line where there is a positive bytecode index. */
  lemma {:induction false} LogShows(traces: seq<Trace>)
    requires forall t | t in traces :: TraceFits(t)
    ensures Shows(Nameless(LogEvents(traces)), traces)
  {
    if traces != [] {
      var n := |traces| - 1;
      var t := traces[n];
      assert t in traces;
      LogShows(traces[..n]);
      FramesShown(MethodsOf(traces[..n]), t.frames);
      hide FramesEvents, ShowsFrame, ShowsFrames, FrameFits, Methods, Nameless, Shows;
      var start, more := TraceStart(t.num, Thread(t)), FramesEvents(MethodsOf(traces[..n]), t.frames);
      assert LogEvents(traces) == LogEvents(traces[..n]) + ([start] + more);
      hide LogEvents, MethodsOf, TraceFits;
      NamelessJoined(LogEvents(traces[..n]), [start] + more);
      NamelessJoined([start], more);
      NamelessStart(start);
      ShownBehind(Nameless(LogEvents(traces[..n])), start, Nameless(more), traces);
    }
  }

  lemma NamelessStart(e: Event)
    ensures Nameless([e]) == if e.NewMethod? then [] else [e]
  {
    assert Nameless([]) == [] && [e][..0] == [];
  }

  lemma ShownBehind(before: seq<Event>, start: Event, more: seq<Event>, traces: seq<Trace>)
    requires traces != [] && Shows(before, traces[..|traces| - 1])
    requires var t := traces[|traces| - 1];
             start == TraceStart(t.num, if t.tid.Some? then t.tid.value else t.env) && ShowsFrames(more, t.frames)
    ensures Shows(before + ([start] + more), traces)
  {
    var es := before + ([start] + more);
    assert es[..|before|] == before && es[|before|..] == [start] + more && ([start] + more)[1..] == more;
  }

  predicate IsFrame(e: Event) { e.FrameBci? || e.FrameFull? }

  /** The methods of the frames in a log. */
  function Seen(es: seq<Event>): set<int> { set e | e in es && IsFrame(e) :: e.methodId }

  /** Names are given right after a frame of their method, and that frame is the first of it. */
  ghost predicate Announced(es: seq<Event>) {
    forall i: nat | i < |es| && es[i].NewMethod? ::
      && i > 0 && IsFrame(es[i - 1]) && es[i - 1].methodId == es[i].methodId
      && es[i].methodId !in Seen(es[..i - 1])
  }

  lemma AnnouncedMore(es: seq<Event>, f: Frame)
    requires Announced(es)
    ensures Announced(es + FrameEvents(Seen(es), f))
    ensures Seen(es + FrameEvents(Seen(es), f)) == Seen(es) + {f.methodId}
  {
    var more := FrameEvents(Seen(es), f);
    var all := es + more;
    assert FrameEvent(f) in more && all[|es|] == FrameEvent(f);
    assert all[..|es|] == es;
    forall i: nat | i < |all| && all[i].NewMethod?
      ensures i > 0 && IsFrame(all[i - 1]) && all[i - 1].methodId == all[i].methodId
              && all[i].methodId !in Seen(all[..i - 1])
    {
      if i < |es| {
        assert all[i] == es[i] && all[..i - 1] == es[..i - 1];
      } else {
        assert i == |es| + 1;
      }
    }
  }

  lemma {:induction false} FramesAnnounced(es: seq<Event>, frames: seq<Frame>)
    requires Announced(es)
    ensures Announced(es + FramesEvents(Seen(es), frames))
    ensures Seen(es + FramesEvents(Seen(es), frames)) == Seen(es) + Methods(frames)
  {
    hide FrameEvents, Announced, Seen;
    if frames == [] {
      assert es + [] == es;
    } else {
      var n := |frames| - 1;
      FramesAnnounced(es, frames[..n]);
      var before := es + FramesEvents(Seen(es), frames[..n]);
      AnnouncedMore(before, frames[n]);
      assert es + FramesEvents(Seen(es), frames) == before + FrameEvents(Seen(before), frames[n]);
      assert frames == frames[..n] + [frames[n]];
    }
  }

  lemma StartAnnounced(es: seq<Event>, e: Event)
    requires Announced(es) && e.TraceStart?
    ensures Announced(es + [e]) && Seen(es + [e]) == Seen(es)
  {
    var all := es + [e];
    forall i: nat | i < |all| && all[i].NewMethod?
      ensures i > 0 && IsFrame(all[i - 1]) && all[i - 1].methodId == all[i].methodId
              && all[i].methodId !in Seen(all[..i - 1])
    {
      assert all[i] == es[i] && all[..i - 1] == es[..i - 1];
    }
  }

  lemma TraceAnnounced(es: seq<Event>, t: Trace)
    requires Announced(es)
    ensures Announced(es + TraceEvents(Seen(es), t))
    ensures Seen(es + TraceEvents(Seen(es), t)) == Seen(es) + Methods(t.frames)
  {
    hide Announced, Seen, FramesEvents, Methods;
    var start := TraceStart(t.num, Thread(t));
    StartAnnounced(es, start);
    FramesAnnounced(es + [start], t.frames);
    Regrouped(es, start, FramesEvents(Seen(es), t.frames));
  }

  lemma Regrouped(es: seq<Event>, e: Event, more: seq<Event>)
    ensures es + ([e] + more) == (es + [e]) + more
  {
  }

  lemma {:induction false} LogAnnounced(traces: seq<Trace>)
    ensures Announced(LogEvents(traces)) && Seen(LogEvents(traces)) == MethodsOf(traces)
  {
    hide TraceEvents, Methods;
    if traces != [] {
      hide Announced, Seen;
      var n := |traces| - 1;
      LogAnnounced(traces[..n]);
      TraceAnnounced(LogEvents(traces[..n]), traces[n]);
    }
  }

  /** In a log of any traces the names of a method are given at most once, and right after the first
      frame of that method. */
  lemma NamesGivenOnce(traces: seq<Trace>)
    ensures var es := LogEvents(traces);
            && (forall i: nat | i < |es| && es[i].NewMethod? ::
                  && i > 0 && IsFrame(es[i - 1]) && es[i - 1].methodId == es[i].methodId
                  && forall j: nat | j < i - 1 && IsFrame(es[j]) :: es[j].methodId != es[i].methodId)
            && (forall i: nat, j: nat | i < j < |es| && es[i].NewMethod? && es[j].NewMethod? ::
                  es[i].methodId != es[j].methodId)
  {
    LogAnnounced(traces);
    var es := LogEvents(traces);
    hide LogEvents;
    forall i: nat, j: nat | i < |es| && es[i].NewMethod? && j < i - 1 && IsFrame(es[j])
      ensures es[j].methodId != es[i].methodId
    {
      assert es[..i - 1][j] in es[..i - 1];
    }
    forall i: nat, j: nat | i < j < |es| && es[i].NewMethod? && es[j].NewMethod?
      ensures es[i].methodId != es[j].methodId
    {
      assert IsFrame(es[i - 1]) && i - 1 < j - 1;
    }
  }

  /** These are names of a frame of that method. */
  ghost predicate NamesSome(e: Event, frames: seq<Frame>)
    requires e.NewMethod?
  {
    exists f :: f in frames && f.methodId == e.methodId && f.names == Some(Names(e.file, e.klass, e.name))
  }

  lemma {:induction false} FramesNames(known: set<int>, frames: seq<Frame>)
    ensures forall e | e in FramesEvents(known, frames) && e.NewMethod? :: NamesSome(e, frames)
  {
    if frames != [] {
      var n := |frames| - 1;
      FramesNames(known, frames[..n]);
      var before, here := FramesEvents(known, frames[..n]), FrameEvents(known + Methods(frames[..n]), frames[n]);
      forall e: Event | e in before + here && e.NewMethod?
        ensures NamesSome(e, frames)
      {
        if e in before {
          var f :| f in frames[..n] && f.methodId == e.methodId && f.names == Some(Names(e.file, e.klass, e.name));
          assert f in frames;
        } else {
          assert e in here && frames[n] in frames;
        }
      }
    }
  }

  /** And they are names that the JVM has given for a frame of that method. */
  lemma {:induction false} NamesAreGiven(traces: seq<Trace>)
    ensures forall e | e in LogEvents(traces) && e.NewMethod? :: exists t :: t in traces && NamesSome(e, t.frames)
  {
    if traces != [] {
      var n := |traces| - 1;
      NamesAreGiven(traces[..n]);
      FramesNames(MethodsOf(traces[..n]), traces[n].frames);
      hide NamesSome, FramesEvents;
      forall e | e in LogEvents(traces) && e.NewMethod?
        ensures exists t :: t in traces && NamesSome(e, t.frames)
      {
        if e in LogEvents(traces[..n]) {
          var t :| t in traces[..n] && NamesSome(e, t.frames);
          assert t in traces;
        } else {
          assert traces[n] in traces;
        }
      }
    }
  }

  lemma {:induction false} FramesPrefix(known: set<int>, frames: seq<Frame>, n: nat)
    requires n <= |frames|
    ensures FramesEvents(known, frames[..n]) <= FramesEvents(known, frames)
  {
    hide FrameEvents, Methods;
    if n == |frames| {
      assert frames[..n] == frames;
    } else {
      var m := |frames| - 1;
      FramesPrefix(known, frames[..m], n);
      assert frames[..m][..n] == frames[..n];
    }
  }

  /** And they are given then whenever the JVM can tell them: a frame that is the first of its method
      in the log, with names, is followed by them. */
  lemma FirstFrameNamed(before: seq<Trace>, t: Trace, n: nat)
    requires n < |t.frames| && t.frames[n].names.Some?
    requires t.frames[n].methodId !in Seen(LogEvents(before)) && t.frames[n].methodId !in Methods(t.frames[..n])
    ensures var log := LogEvents(before + [t]);
            var k := |LogEvents(before)| + 1 + |FramesEvents(MethodsOf(before), t.frames[..n])|;
            var f := t.frames[n];
            k + 1 < |log| && log[k] == FrameEvent(f)
            && log[k + 1] == NewMethod(f.methodId, f.names.value.file, f.names.value.klass, f.names.value.name)
  {
    hide FrameEvents;
    LogAnnounced(before);
    assert (before + [t])[..|before|] == before;
    FramesMore(MethodsOf(before), t.frames, n);
    FramesPrefix(MethodsOf(before), t.frames, n + 1);
    FirstEvents(MethodsOf(before) + Methods(t.frames[..n]), t.frames[n]);
    hide FramesEvents, Seen, Methods, LogEvents;
    InTheMiddle(LogEvents(before), TraceStart(t.num, Thread(t)), FramesEvents(MethodsOf(before), t.frames[..n]),
                FrameEvent(t.frames[n]), NewMethodOf(t.frames[n]), FramesEvents(MethodsOf(before), t.frames));
  }

  lemma FirstEvents(known: set<int>, f: Frame)
    requires f.names.Some? && f.methodId !in known
    ensures FrameEvents(known, f) == [FrameEvent(f), NewMethodOf(f)]
  {
  }

  lemma InTheMiddle(before: seq<Event>, start: Event, some: seq<Event>, e: Event, f: Event, all: seq<Event>)
    requires some + [e, f] <= all
    ensures var log := before + ([start] + all);
            var k := |before| + 1 + |some|;
            k + 1 < |log| && log[k] == e && log[k + 1] == f
  {
    assert all[|some|] == (some + [e, f])[|some|] && all[|some| + 1] == (some + [e, f])[|some| + 1];
  }
}
