/** The event stream of the log: every number in network byte order, strings after their sizes. */
module LogFormat {
  import opened Bytes
  import opened Options
  import Arithmetic

  // ---- Words --------------------------------------------------------------------------------------

  function Power256(n: nat): (p: nat)
    ensures p > 0
  {
    if n == 0 then 1 else 256 * Power256(n - 1)
  }

  /** The n bytes of a value, least significant first, as a little-endian host keeps them. */
  function Little(v: nat, n: nat): seq<byte> {
    if n == 0 then [] else [v % 256] + Little(v / 256, n - 1)
  }

  /** The n bytes of a value, most significant first. */
  function Big(v: nat, n: nat): seq<byte> {
    if n == 0 then [] else Big(v / 256, n - 1) + [v % 256]
  }

  /** The memory of a value on a host of either kind. */
  function Image(v: nat, n: nat, little: bool): seq<byte> { if little then Little(v, n) else Big(v, n) }

  lemma {:induction false} LittleIsReversed(v: nat, n: nat)
    ensures |Little(v, n)| == n == |Big(v, n)|
    ensures forall i | 0 <= i < n :: Little(v, n)[i] == Big(v, n)[n - 1 - i]
  {
    if n > 0 {
      LittleIsReversed(v / 256, n - 1);
    }
  }

  function FromBig(s: seq<byte>): nat {
    if s == [] then 0 else 256 * FromBig(s[..|s| - 1]) + s[|s| - 1]
  }

  lemma {:induction false} FromBigOfBig(v: nat, n: nat)
    requires v < Power256(n)
    ensures |Big(v, n)| == n && FromBig(Big(v, n)) == v
  {
    if n > 0 {
      FromBigOfBig(v / 256, n - 1);
      assert Big(v, n)[..n - 1] == Big(v / 256, n - 1);
    }
  }

  /** Byte i has the weight 256 to the power of n - 1 - i. */
  lemma {:induction false} BigDigit(v: nat, n: nat, i: nat)
    requires i < n
    ensures |Big(v, n)| == n && Big(v, n)[i] == v / Power256(n - 1 - i) % 256
    decreases n
  {
    LittleIsReversed(v, n);
    if i < n - 1 {
      BigDigit(v / 256, n - 1, i);
      Arithmetic.DivideTwice(v, 256, Power256(n - 2 - i));
    }
  }

  /** Two's complement in n bytes. */
  predicate Signed(v: int, n: nat)
    requires n > 0
  {
    -128 * Power256(n - 1) <= v < 128 * Power256(n - 1)
  }

  function Unsigned(v: int, n: nat): nat
    requires n > 0 && Signed(v, n)
  {
    if v >= 0 then v else v + Power256(n)
  }

  function ToSigned(u: nat, n: nat): int
    requires n > 0
  {
    if u < 128 * Power256(n - 1) then u else u - Power256(n)
  }

  function Number(v: int, n: nat): seq<byte>
    requires n > 0 && Signed(v, n)
  {
    Big(Unsigned(v, n), n)
  }

  function ReadNumber(s: seq<byte>, n: nat): Option<(int, seq<byte>)>
    requires n > 0
  {
    if |s| < n then None else Some((ToSigned(FromBig(s[..n]), n), s[n..]))
  }

  lemma NumberRead(v: int, n: nat, rest: seq<byte>)
    requires n > 0 && Signed(v, n)
    ensures |Number(v, n)| == n && ReadNumber(Number(v, n) + rest, n) == Some((v, rest))
  {
    assert Power256(n) == 256 * Power256(n - 1);
    FromBigOfBig(Unsigned(v, n), n);
    assert (Number(v, n) + rest)[..n] == Number(v, n);
  }

  // ---- Events -------------------------------------------------------------------------------------

  const TRACE_START: byte := 1
  const FRAME_BCI_ONLY: byte := 2
  const NEW_METHOD: byte := 3
  const FRAME_FULL: byte := 21

  datatype Event =
    | TraceStart(frames: int, thread: int)
    | FrameBci(bci: int, methodId: int)
    | FrameFull(bci: int, line: int, methodId: int)
    | NewMethod(methodId: int, file: seq<byte>, klass: seq<byte>, name: seq<byte>)

  predicate Text(s: seq<byte>) { Signed(|s|, 4) }

  predicate Fits(e: Event) {
    match e
    case TraceStart(frames, thread) => Signed(frames, 4) && Signed(thread, 8)
    case FrameBci(bci, methodId) => Signed(bci, 4) && Signed(methodId, 8)
    case FrameFull(bci, line, methodId) => Signed(bci, 4) && Signed(line, 4) && Signed(methodId, 8)
    case NewMethod(methodId, file, klass, name) => Signed(methodId, 8) && Text(file) && Text(klass) && Text(name)
  }

  function Sized(s: seq<byte>): seq<byte>
    requires Text(s)
  {
    Number(|s|, 4) + s
  }

  function Kind(e: Event): byte {
    match e
    case TraceStart(_, _) => TRACE_START
    case FrameBci(_, _) => FRAME_BCI_ONLY
    case FrameFull(_, _, _) => FRAME_FULL
    case NewMethod(_, _, _, _) => NEW_METHOD
  }

  function Body(e: Event): seq<byte>
    requires Fits(e)
  {
    match e
    case TraceStart(frames, thread) => Number(frames, 4) + Number(thread, 8)
    case FrameBci(bci, methodId) => Number(bci, 4) + Number(methodId, 8)
    case FrameFull(bci, line, methodId) => Number(bci, 4) + Number(line, 4) + Number(methodId, 8)
    case NewMethod(methodId, file, klass, name) => Number(methodId, 8) + Sized(file) + Sized(klass) + Sized(name)
  }

  function EncodeOne(e: Event): seq<byte>
    requires Fits(e)
  {
    [Kind(e)] + Body(e)
  }

  predicate AllFit(es: seq<Event>) { forall e | e in es :: Fits(e) }

  function Encode(es: seq<Event>): seq<byte>
    requires AllFit(es)
  {
    if es == [] then [] else Encode(es[..|es| - 1]) + EncodeOne(es[|es| - 1])
  }

  // ---- Four events, byte by byte ------------------------------------------------------------------

  lemma SmallNumber(v: nat, n: nat)
    requires v < 128 && (n == 4 || n == 8)
    ensures Signed(v, n) && Number(v, n) == if n == 4 then [0, 0, 0, v] else [0, 0, 0, 0, 0, 0, 0, v]
  {
    assert Power256(n - 1) >= 1;
    Zeros(3);
    Zeros(7);
    assert Big(v, n) == Big(0, n - 1) + [v];
  }

  lemma {:induction false} Zeros(n: nat)
    ensures Big(0, n) == seq(n, _ => 0)
  {
    if n > 0 {
      Zeros(n - 1);
      assert seq(n, _ => 0) == seq(n - 1, _ => 0) + [0];
    }
  }

  lemma {:induction false} Ones(n: nat)
    ensures Big(Power256(n) - 1, n) == seq(n, _ => 255)
  {
    if n > 0 {
      Ones(n - 1);
      assert (Power256(n) - 1) / 256 == Power256(n - 1) - 1 && (Power256(n) - 1) % 256 == 255;
      assert seq(n, _ => 255) == seq(n - 1, _ => 255) + [255];
    }
  }

  lemma MinusOne()
    ensures Signed(-1, 4) && Number(-1, 4) == [255, 255, 255, 255]
  {
    assert Power256(3) >= 1;
    Ones(4);
  }

  /** A trace of two frames of thread 7, a frame with its line and one without, and a method's names. */
  lemma FourEvents()
    ensures Fits(TraceStart(2, 7)) && EncodeOne(TraceStart(2, 7)) == [1, 0, 0, 0, 2, 0, 0, 0, 0, 0, 0, 0, 7]
    ensures Fits(FrameFull(5, 42, 9))
            && EncodeOne(FrameFull(5, 42, 9)) == [21, 0, 0, 0, 5, 0, 0, 0, 42, 0, 0, 0, 0, 0, 0, 0, 9]
    ensures Fits(FrameBci(-1, 9)) && EncodeOne(FrameBci(-1, 9)) == [2, 255, 255, 255, 255, 0, 0, 0, 0, 0, 0, 0, 9]
    ensures Fits(NewMethod(9, [70], [75], [109]))
            && EncodeOne(NewMethod(9, [70], [75], [109]))
               == [3, 0, 0, 0, 0, 0, 0, 0, 9, 0, 0, 0, 1, 70, 0, 0, 0, 1, 75, 0, 0, 0, 1, 109]
  {
    hide EncodeOne, Fits, Signed;
    StartBytes();
    FullBytes();
    BciBytes();
    NamesBytes();
  }

  lemma StartBytes()
    ensures Fits(TraceStart(2, 7)) && EncodeOne(TraceStart(2, 7)) == [1, 0, 0, 0, 2, 0, 0, 0, 0, 0, 0, 0, 7]
  {
    hide Number, Signed;
    SmallNumber(2, 4);
    SmallNumber(7, 8);
  }

  lemma FullBytes()
    ensures Fits(FrameFull(5, 42, 9))
            && EncodeOne(FrameFull(5, 42, 9)) == [21, 0, 0, 0, 5, 0, 0, 0, 42, 0, 0, 0, 0, 0, 0, 0, 9]
  {
    hide Number, Signed;
    SmallNumber(5, 4);
    SmallNumber(42, 4);
    SmallNumber(9, 8);
  }

  lemma BciBytes()
    ensures Fits(FrameBci(-1, 9)) && EncodeOne(FrameBci(-1, 9)) == [2, 255, 255, 255, 255, 0, 0, 0, 0, 0, 0, 0, 9]
  {
    hide Number, Signed;
    MinusOne();
    SmallNumber(9, 8);
  }

  lemma NamesBytes()
    ensures Fits(NewMethod(9, [70], [75], [109]))
            && EncodeOne(NewMethod(9, [70], [75], [109]))
               == [3, 0, 0, 0, 0, 0, 0, 0, 9, 0, 0, 0, 1, 70, 0, 0, 0, 1, 75, 0, 0, 0, 1, 109]
  {
    hide Number, Signed;
    SmallNumber(9, 8);
    SmallNumber(1, 4);
    assert Sized([70]) == [0, 0, 0, 1, 70] && Sized([75]) == [0, 0, 0, 1, 75] && Sized([109]) == [0, 0, 0, 1, 109];
    hide Sized;
  }

  // ---- Decoding -----------------------------------------------------------------------------------

  function ReadSized(s: seq<byte>): Option<(seq<byte>, seq<byte>)> {
    match ReadNumber(s, 4)
    case None => None
    case Some((n, rest)) => if 0 <= n <= |rest| then Some((rest[..n], rest[n..])) else None
  }

  function ReadTraceStart(s: seq<byte>): Option<(Event, seq<byte>)> {
    match ReadNumber(s, 4)
    case None => None
    case Some((frames, s1)) =>
      match ReadNumber(s1, 8)
      case None => None
      case Some((thread, s2)) => Some((TraceStart(frames, thread), s2))
  }

  function ReadFrameBci(s: seq<byte>): Option<(Event, seq<byte>)> {
    match ReadNumber(s, 4)
    case None => None
    case Some((bci, s1)) =>
      match ReadNumber(s1, 8)
      case None => None
      case Some((methodId, s2)) => Some((FrameBci(bci, methodId), s2))
  }

  function ReadFrameFull(s: seq<byte>): Option<(Event, seq<byte>)> {
    match ReadNumber(s, 4)
    case None => None
    case Some((bci, s1)) =>
      match ReadNumber(s1, 4)
      case None => None
      case Some((line, s2)) =>
        match ReadNumber(s2, 8)
        case None => None
        case Some((methodId, s3)) => Some((FrameFull(bci, line, methodId), s3))
  }

  function ReadNewMethod(s: seq<byte>): Option<(Event, seq<byte>)> {
    match ReadNumber(s, 8)
    case None => None
    case Some((methodId, s1)) =>
      match ReadSized(s1)
      case None => None
      case Some((file, s2)) =>
        match ReadSized(s2)
        case None => None
        case Some((klass, s3)) =>
          match ReadSized(s3)
          case None => None
          case Some((name, s4)) => Some((NewMethod(methodId, file, klass, name), s4))
  }

  function ReadBody(kind: byte, s: seq<byte>): Option<(Event, seq<byte>)> {
    if kind == TRACE_START then ReadTraceStart(s)
    else if kind == FRAME_BCI_ONLY then ReadFrameBci(s)
    else if kind == FRAME_FULL then ReadFrameFull(s)
    else if kind == NEW_METHOD then ReadNewMethod(s)
    else None
  }

  /** The first byte tells the kind of the event. */
  function DecodeOne(s: seq<byte>): Option<(Event, seq<byte>)> {
    if s == [] then None else ReadBody(s[0], s[1..])
  }

  function Decode(s: seq<byte>): Option<seq<Event>>
    decreases |s|
  {
    hide DecodeOne;
    if s == [] then Some([])
    else
      match DecodeOne(s)
      case None => None
      case Some((e, rest)) =>
        if |rest| >= |s| then None
        else
          match Decode(rest)
          case None => None
          case Some(es) => Some([e] + es)
  }

  lemma SizedRead(s: seq<byte>, rest: seq<byte>)
    requires Text(s)
    ensures ReadSized(Sized(s) + rest) == Some((s, rest))
  {
    NumberRead(|s|, 4, s + rest);
    assert Sized(s) + rest == Number(|s|, 4) + (s + rest);
    assert (s + rest)[..|s|] == s && (s + rest)[|s|..] == rest;
  }

  lemma TraceStartRead(frames: int, thread: int, rest: seq<byte>)
    requires Signed(frames, 4) && Signed(thread, 8)
    ensures ReadTraceStart(Number(frames, 4) + Number(thread, 8) + rest) == Some((TraceStart(frames, thread), rest))
  {
    hide Number, ReadNumber, Signed;
    NumberRead(thread, 8, rest);
    NumberRead(frames, 4, Number(thread, 8) + rest);
    assert Number(frames, 4) + Number(thread, 8) + rest == Number(frames, 4) + (Number(thread, 8) + rest);
  }

  lemma FrameBciRead(bci: int, methodId: int, rest: seq<byte>)
    requires Signed(bci, 4) && Signed(methodId, 8)
    ensures ReadFrameBci(Number(bci, 4) + Number(methodId, 8) + rest) == Some((FrameBci(bci, methodId), rest))
  {
    hide Number, ReadNumber, Signed;
    NumberRead(methodId, 8, rest);
    NumberRead(bci, 4, Number(methodId, 8) + rest);
    assert Number(bci, 4) + Number(methodId, 8) + rest == Number(bci, 4) + (Number(methodId, 8) + rest);
  }

  lemma FrameFullRead(bci: int, line: int, methodId: int, rest: seq<byte>)
    requires Signed(bci, 4) && Signed(line, 4) && Signed(methodId, 8)
    ensures ReadFrameFull(Number(bci, 4) + Number(line, 4) + Number(methodId, 8) + rest)
            == Some((FrameFull(bci, line, methodId), rest))
  {
    hide Number, ReadNumber, Signed;
    NumberRead(methodId, 8, rest);
    NumberRead(line, 4, Number(methodId, 8) + rest);
    NumberRead(bci, 4, Number(line, 4) + (Number(methodId, 8) + rest));
    assert Number(bci, 4) + Number(line, 4) + Number(methodId, 8) + rest
        == Number(bci, 4) + (Number(line, 4) + (Number(methodId, 8) + rest));
  }

  lemma NewMethodRead(methodId: int, file: seq<byte>, klass: seq<byte>, name: seq<byte>, rest: seq<byte>)
    requires Signed(methodId, 8) && Text(file) && Text(klass) && Text(name)
    ensures ReadNewMethod(Number(methodId, 8) + Sized(file) + Sized(klass) + Sized(name) + rest)
            == Some((NewMethod(methodId, file, klass, name), rest))
  {
    hide Number, ReadNumber, Signed, Sized, ReadSized, Text;
    var afterClass := Sized(name) + rest;
    var afterFile := Sized(klass) + afterClass;
    SizedRead(name, rest);
    SizedRead(klass, afterClass);
    SizedRead(file, afterFile);
    NumberRead(methodId, 8, Sized(file) + afterFile);
    assert Number(methodId, 8) + Sized(file) + Sized(klass) + Sized(name) + rest
        == Number(methodId, 8) + (Sized(file) + afterFile);
  }

  lemma BodyRead(e: Event, rest: seq<byte>)
    requires Fits(e)
    ensures ReadBody(Kind(e), Body(e) + rest) == Some((e, rest))
  {
    hide Number, Sized, Text, Signed, ReadTraceStart, ReadFrameBci, ReadFrameFull, ReadNewMethod;
    match e
    case TraceStart(frames, thread) => TraceStartRead(frames, thread, rest);
    case FrameBci(bci, methodId) => FrameBciRead(bci, methodId, rest);
    case FrameFull(bci, line, methodId) => FrameFullRead(bci, line, methodId, rest);
    case NewMethod(methodId, file, klass, name) => NewMethodRead(methodId, file, klass, name, rest);
  }

  lemma OneRead(e: Event, rest: seq<byte>)
    requires Fits(e)
    ensures DecodeOne(EncodeOne(e) + rest) == Some((e, rest)) && |EncodeOne(e)| > 0
  {
    BodyRead(e, rest);
    hide ReadBody, Body, Fits, Kind;
    KindFirst(Kind(e), Body(e), rest);
  }

  lemma KindFirst(kind: byte, body: seq<byte>, rest: seq<byte>)
    ensures var s := [kind] + body + rest; s != [] && s[0] == kind && s[1..] == body + rest
  {
  }

  lemma {:induction false} EncodeFirst(es: seq<Event>)
    requires AllFit(es) && es != []
    ensures es[0] in es && AllFit(es[1..]) && Encode(es) == EncodeOne(es[0]) + Encode(es[1..])
  {
    hide EncodeOne, Fits;
    var n := |es| - 1;
    if n == 0 {
      assert es[..0] == [] && es[1..] == [];
    } else {
      EncodeFirst(es[..n]);
      assert es[..n][1..] == es[1..][..n - 1];
      assert es[1..][n - 1] == es[n];
    }
  }

  /** Decoding gives back exactly the events that were written. */
  lemma {:induction false} RoundTrip(es: seq<Event>)
    requires AllFit(es)
    ensures Decode(Encode(es)) == Some(es)
  {
    hide EncodeOne, DecodeOne, Fits;
    if es != [] {
      EncodeFirst(es);
      RoundTrip(es[1..]);
      OneRead(es[0], Encode(es[1..]));
      hide Encode;
      assert es == [es[0]] + es[1..];
    }
  }

  /** So no stream of bytes stands for two sequences of events. */
  lemma UniquelyDecodable(es: seq<Event>, fs: seq<Event>)
    requires AllFit(es) && AllFit(fs) && Encode(es) == Encode(fs)
    ensures es == fs
  {
    RoundTrip(es);
    RoundTrip(fs);
  }
}
