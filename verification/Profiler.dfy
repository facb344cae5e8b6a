/** Reconfiguring the profiler: the copied path strings that two configurations share, and the
    objects that are rebuilt when a setting they were made from changes. */
module Profilers {
  import opened Options
  import Ring

  const NULL: nat := 0
  const DEFAULT_SAMPLING_INTERVAL: int := 1
  const DEFAULT_MAX_FRAMES: int := 128
  const MAX_FRAMES: int := 2048

  /** `path` is the address of a string. */
  datatype Config = Config(min: int, max: int, path: nat, maxFrames: int)

  /** Objects have an identity; they refer to others by it. */
  datatype LogFile = LogFile(id: nat, name: string)
  datatype Writer = Writer(id: nat, file: nat)
  datatype Buffer = Buffer(id: nat, writer: nat, maxFrames: int)
  datatype Handler = Handler(id: nat, min: int, max: int)
  datatype Processor = Processor(id: nat, writer: nat, buffer: nat, handler: nat, interval: int)

  function Least(a: int, b: int): int { if a < b then a else b }
  function Greatest(a: int, b: int): int { if a < b then b else a }
  function OrDefault(x: int, default: int): int { if x > 0 then x else default }

  /** How long the processor sleeps, in milliseconds: half the time that 1024 samples take which are `min`
      microseconds apart, but at least one. */
  function ProcessorInterval(min: int): (ms: int)
    requires min > 0
    ensures ms >= 1 && 1024 * min < 2000 * (ms + 1)
    ensures ms == 1 || 2000 * ms <= 1024 * min
  {
    Greatest(Ring.SIZE * min / 1000 / 2, 1)
  }

  predicate InRange(c: Config) { 1 <= c.min <= c.max && 1 <= c.maxFrames < MAX_FRAMES }

  // ---- The heap of copied strings -----------------------------------------------------------------

  /** `strings` are the copies that are not freed yet. An address may come back after it was freed. */
  class Strings {
    var strings: map<nat, string>
    var copies: nat                 // calls of malloc and free so far
    var frees: nat

    constructor ()
      ensures strings == map[] && copies == 0 && frees == 0
    {
      strings, copies, frees := map[], 0, 0;
    }

    /** `at` is the allocator's choice. */
    method Copy(s: string, at: nat)
      requires at != NULL && at !in strings
      modifies this
      ensures strings == old(strings)[at := s] && copies == old(copies) + 1 && frees == old(frees)
    {
      strings := strings[at := s];
      copies := copies + 1;
    }

    method Free(at: nat)
      requires at in strings
      modifies this
      ensures strings == old(strings) - {at} && frees == old(frees) + 1 && copies == old(copies)
    {
      strings := strings - {at};
      frees := frees + 1;
    }
  }

  /** Exactly the strings at two addresses, which may be the same or null, are not freed. */
  ghost predicate Owned(strings: map<nat, string>, a: nat, b: nat) {
    forall at :: at in strings <==> at != NULL && (at == a || at == b)
  }

  lemma OwnedFree(strings: map<nat, string>, a: nat, b: nat)
    requires Owned(strings, a, b) && a != NULL && a != b
    ensures a in strings && Owned(strings - {a}, NULL, b) && |strings - {a}| == |strings| - 1
  {
    assert strings.Keys == (strings - {a}).Keys + {a};
  }

  lemma OwnedCopy(strings: map<nat, string>, b: nat, at: nat, s: string)
    requires Owned(strings, NULL, b) && at != NULL && at !in strings
    ensures Owned(strings[at := s], at, b) && |strings[at := s]| == |strings| + 1
  {
    assert strings[at := s].Keys == strings.Keys + {at};
  }

  lemma OwnedSwap(strings: map<nat, string>, a: nat, b: nat)
    requires Owned(strings, a, b)
    ensures Owned(strings, b, a)
    ensures a != NULL ==> a in strings
    ensures a == b ==> Owned(strings, a, NULL) && Owned(strings, NULL, a)
    ensures a == NULL ==> Owned(strings, b, b)
    ensures a == NULL && b == NULL ==> strings == map[]
  {
  }

  /** The buffer was made for this writer and this many frames. */
  ghost predicate IsBuffer(buffer: Option<Buffer>, writer: Option<Writer>, maxFrames: int) {
    writer.Some? && buffer.Some? && buffer.value.writer == writer.value.id && buffer.value.maxFrames == maxFrames
  }

  /** The handler was made for this interval, and the processor for these objects. */
  ghost predicate IsProcessor(processor: Option<Processor>, handler: Option<Handler>, buffer: Option<Buffer>,
                              writer: Option<Writer>, min: int, max: int) {
    && writer.Some? && buffer.Some? && handler.Some? && processor.Some? && min > 0
    && handler.value == Handler(handler.value.id, min, max)
    && processor.value == Processor(processor.value.id, writer.value.id, buffer.value.id, handler.value.id,
                                    ProcessorInterval(min))
  }

  /** Exactly these objects are not deleted, and no two of them are the same. */
  ghost predicate InUse(objects: set<nat>, made: nat, logFile: Option<LogFile>, writer: Option<Writer>,
                        buffer: Option<Buffer>, handler: Option<Handler>, processor: Option<Processor>) {
    var l: int := if logFile.Some? then logFile.value.id else -1;
    var w: int := if writer.Some? then writer.value.id else -2;
    var b: int := if buffer.Some? then buffer.value.id else -3;
    var h: int := if handler.Some? then handler.value.id else -4;
    var p: int := if processor.Some? then processor.value.id else -5;
    && l < made && w < made && b < made && h < made && p < made
    && l != w && l != b && l != h && l != p && w != b && w != h && w != p && b != h && b != p && h != p
    && (forall o: nat :: o in objects <==> o == l || o == w || o == b || o == h || o == p)
  }

  // ---- The profiler -------------------------------------------------------------------------------

  class Profiler {
    const heap: Strings
    var conf: Config                // configuration_, owned
    var live: Config                // liveConfiguration, the agent's
    var logFile: Option<LogFile>
    var writer: Option<Writer>
    var buffer: Option<Buffer>
    var handler: Option<Handler>
    var processor: Option<Processor>
    var running: bool
    var reloadConfig: bool
    var objects: set<nat>           // the objects that are not deleted
    var made: nat                   // how many objects were made

    /** Exactly the strings in use are not freed. */
    ghost predicate StringsOwned()
      reads this, heap
    {
      Owned(heap.strings, conf.path, live.path) && heap.copies == heap.frees + |heap.strings|
    }

    ghost predicate ObjectsOwned()
      reads this
    {
      InUse(objects, made, logFile, writer, buffer, handler, processor)
    }

    ghost predicate WriterLinked()
      reads this, heap
    {
      && conf.path != NULL && conf.path in heap.strings && logFile.Some? && writer.Some?
      && logFile.value.name == heap.strings[conf.path] && writer.value.file == logFile.value.id
    }

    ghost predicate BufferLinked()
      reads this
    {
      IsBuffer(buffer, writer, conf.maxFrames)
    }

    ghost predicate ProcessorLinked()
      reads this
    {
      IsProcessor(processor, handler, buffer, writer, conf.min, conf.max)
    }

    /** The objects are those made from the effective configuration, and refer to each other. */
    ghost predicate Linked()
      reads this, heap
    {
      WriterLinked() && BufferLinked() && ProcessorLinked() && InRange(conf)
    }

    ghost predicate Unlinked()
      reads this
    {
      && logFile == None && writer == None && buffer == None && handler == None && processor == None
      && conf.path == NULL
    }

    ghost predicate Valid()
      reads this, heap
    {
      && StringsOwned() && ObjectsOwned() && Linked() && InRange(live)
      && (!reloadConfig ==> conf == live)
      && (running ==> !reloadConfig)
    }

    /** The agent's configuration comes from its arguments: any numbers, and a copied path or none. */
    constructor (heap: Strings, arguments: Config, at: nat, name: string)
      requires heap.copies == heap.frees + |heap.strings|
      requires heap.strings.Keys == if arguments.path == NULL then {} else {arguments.path}
      requires at != NULL && at !in heap.strings
      modifies heap
      ensures Valid() && this.heap == heap && !running && !reloadConfig && heap.copies >= 1
      ensures live == WithMaxFrames(WithInterval(arguments, arguments.min, arguments.max), arguments.maxFrames).(path := live.path)
      ensures arguments.path != NULL ==> live.path == arguments.path
    {
      this.heap := heap;
      live := arguments;
      conf := Config(DEFAULT_SAMPLING_INTERVAL, DEFAULT_SAMPLING_INTERVAL, NULL, DEFAULT_MAX_FRAMES);
      logFile, writer, buffer, handler, processor := None, None, None, None, None;
      running, reloadConfig, objects, made := false, true, {}, 0;
      new;
      SetSamplingInterval(live.min, live.max);
      SetMaxFramesToCapture(live.maxFrames);
      Configure(at, name);
    }

    method SetSamplingInterval(intervalMin: int, intervalMax: int)
      modifies this`live, this`reloadConfig
      ensures if running then live == old(live) && reloadConfig == old(reloadConfig)
              else live == WithInterval(old(live), intervalMin, intervalMax) && reloadConfig
      ensures old(Valid()) ==> Valid()
    {
      if running {
        return;
      }
      var min := if intervalMin > 0 then intervalMin else DEFAULT_SAMPLING_INTERVAL;
      var max := if intervalMax > 0 then intervalMax else DEFAULT_SAMPLING_INTERVAL;
      live := live.(min := Least(min, max));
      live := live.(max := Greatest(min, max));
      reloadConfig := true;
    }

    method SetMaxFramesToCapture(maxFramesToCapture: int)
      modifies this`live, this`reloadConfig
      ensures if running then live == old(live) && reloadConfig == old(reloadConfig)
              else live == WithMaxFrames(old(live), maxFramesToCapture) && reloadConfig
      ensures old(Valid()) ==> Valid()
    {
      if running {
        return;
      }
      var res := if 0 < maxFramesToCapture < MAX_FRAMES then maxFramesToCapture else DEFAULT_MAX_FRAMES;
      live := live.(maxFrames := res);
      reloadConfig := true;
    }

    /** The old path is freed, unless the effective configuration still has it. */
    method SetFilePath(newFilePath: Option<string>, at: nat)
      requires Valid() && at != NULL && (at !in heap.strings || (at == live.path && at != conf.path))
      modifies this`live, this`reloadConfig, heap
      ensures Valid() && conf == old(conf)
      ensures if running then live == old(live) && heap.strings == old(heap.strings) && reloadConfig == old(reloadConfig)
              else live == old(live).(path := if newFilePath.Some? then at else NULL) && reloadConfig
      ensures !running && newFilePath.Some? ==> heap.strings[at] == newFilePath.value
    {
      hide Owned, InUse, IsBuffer, IsProcessor;
      if running {
        return;
      }
      ReleaseLivePath();
      TakeLivePath(newFilePath, at);
      reloadConfig := true;
    }

    method TakeLivePath(newFilePath: Option<string>, at: nat)
      requires Owned(heap.strings, NULL, conf.path) && heap.copies == heap.frees + |heap.strings|
      requires at != NULL && at !in heap.strings && conf.path in heap.strings
      modifies this`live, heap
      ensures StringsOwned() && live == old(live).(path := if newFilePath.Some? then at else NULL)
      ensures conf.path in heap.strings && heap.strings[conf.path] == old(heap.strings[conf.path])
      ensures newFilePath.Some? ==> heap.strings[at] == newFilePath.value
    {
      hide Owned;
      if newFilePath.Some? {
        OwnedCopy(heap.strings, conf.path, at, newFilePath.value);
        heap.Copy(newFilePath.value, at);
        live := live.(path := at);
      } else {
        live := live.(path := NULL);
      }
      OwnedSwap(heap.strings, live.path, conf.path);
    }

    /** The live path goes, unless it is shared. */
    method ReleaseLivePath()
      requires StringsOwned() && conf.path != NULL
      modifies this`live, heap
      ensures Owned(heap.strings, NULL, conf.path) && heap.copies == heap.frees + |heap.strings|
      ensures live == old(live).(path := live.path)
      ensures conf.path in old(heap.strings) && conf.path in heap.strings
      ensures heap.strings[conf.path] == old(heap.strings[conf.path])
      ensures heap.strings == if old(live).path != NULL && old(live).path != conf.path
                              then old(heap.strings) - {old(live).path} else old(heap.strings)
    {
      hide Owned;
      OwnedSwap(heap.strings, conf.path, live.path);
      OwnedSwap(heap.strings, live.path, conf.path);
      if live.path != NULL && live.path != conf.path {
        OwnedFree(heap.strings, live.path, conf.path);
        heap.Free(live.path);
        live := live.(path := NULL);
      }
      OwnedSwap(heap.strings, conf.path, NULL);
    }

    /** Rebuilds what a changed setting asks for, and whatever was made from what is rebuilt. */
    method Configure(at: nat, name: string)
      requires StringsOwned() && ObjectsOwned() && InRange(live) && (Linked() || Unlinked())
      requires !running && at != NULL && (at !in heap.strings || (live.path == NULL && at == conf.path))
      modifies this, heap
      ensures Valid() && conf == live && !reloadConfig && !running
      ensures live == old(live).(path := live.path)
      ensures if old(live).path == NULL then heap.strings[live.path] == name
              else live.path == old(live).path && heap.strings[live.path] == old(heap.strings[live.path])
      ensures old(processor) != None && old(conf.path == live.path) ==> logFile == old(logFile) && writer == old(writer)
      ensures old(processor) != None && old(conf.path == live.path && conf.maxFrames == live.maxFrames) ==>
                buffer == old(buffer)
      ensures old(processor) != None && old(conf == live) ==> handler == old(handler) && processor == old(processor)
      ensures old(processor) == None || old(conf.path != live.path) ==>
                logFile.value.id >= old(made) && writer.value.id >= old(made)
      ensures old(processor) == None || old(conf.path != live.path || conf.maxFrames != live.maxFrames) ==>
                buffer.value.id >= old(made)
      ensures old(processor) == None || old(conf != live) ==>
                handler.value.id >= old(made) && processor.value.id >= old(made)
    {
      hide Owned, InUse, ProcessorInterval;
      var needsUpdate := processor == None;
      needsUpdate := needsUpdate || conf.path != live.path;
      if needsUpdate {
        RebuildWriter(at, name);
      }
      RebuildReaders(needsUpdate);
      reloadConfig := false;
    }

    /** The queue and what reads it, which are rebuilt if the writer was. */
    method RebuildReaders(writerIsNew: bool)
      requires StringsOwned() && ObjectsOwned() && WriterLinked() && InRange(live) && conf.path == live.path
      requires writerIsNew || (BufferLinked() && ProcessorLinked())
      modifies this`conf, this`buffer, this`handler, this`processor, this`objects, this`made
      ensures StringsOwned() && ObjectsOwned() && Linked() && conf == live
      ensures !writerIsNew && old(conf.maxFrames == live.maxFrames) ==> buffer == old(buffer)
      ensures !writerIsNew && old(conf == live) ==> handler == old(handler) && processor == old(processor)
      ensures writerIsNew || old(conf.maxFrames != live.maxFrames) ==> buffer.value.id >= old(made)
      ensures writerIsNew || old(conf != live) ==> handler.value.id >= old(made) && processor.value.id >= old(made)
    {
      hide Owned, InUse, ProcessorInterval;
      var needsUpdate := writerIsNew;
      needsUpdate := needsUpdate || conf.maxFrames != live.maxFrames;
      if needsUpdate {
        RebuildBuffer();
      }
      needsUpdate := needsUpdate || conf.min != live.min || conf.max != live.max;
      if needsUpdate {
        RebuildProcessor();
      }
    }

    method RebuildWriter(at: nat, name: string)
      requires StringsOwned() && ObjectsOwned()
      requires conf.path == live.path ==> conf.path == NULL
      requires at != NULL && (at !in heap.strings || (live.path == NULL && at == conf.path))
      modifies this`conf, this`live, this`logFile, this`writer, this`objects, this`made, heap
      ensures StringsOwned() && ObjectsOwned() && WriterLinked()
      ensures logFile.value.id >= old(made) && writer.value.id >= old(made) && made >= old(made)
      ensures conf == old(conf).(path := live.path) && live == old(live).(path := live.path)
      ensures if old(live).path == NULL then heap.strings[live.path] == name
              else live.path == old(live).path && heap.strings[live.path] == old(heap.strings[live.path])
    {
      hide Owned, InUse;
      DropWriter();
      TakePath(at, name);
      MakeWriter();
    }

    method DropWriter()
      requires ObjectsOwned()
      modifies this`logFile, this`writer, this`objects
      ensures ObjectsOwned() && logFile == None && writer == None
    {
      if logFile.Some? {
        Delete(logFile.value.id);
        logFile := None;
      }
      if writer.Some? {
        Delete(writer.value.id);
        writer := None;
      }
    }

    /** The effective path is freed, and the live one shared; without one, a name is made up. */
    method TakePath(at: nat, name: string)
      requires StringsOwned() && (conf.path == live.path ==> conf.path == NULL)
      requires at != NULL && (at !in heap.strings || (live.path == NULL && at == conf.path))
      modifies this`conf, this`live, heap
      ensures StringsOwned() && conf.path != NULL && conf.path in heap.strings
      ensures conf == old(conf).(path := live.path) && live == old(live).(path := live.path)
      ensures if old(live).path == NULL then heap.strings[live.path] == name
              else live.path == old(live).path && live.path in old(heap.strings)
                   && heap.strings[live.path] == old(heap.strings[live.path])
    {
      hide Owned;
      OwnedSwap(heap.strings, conf.path, live.path);
      OwnedSwap(heap.strings, live.path, conf.path);
      if conf.path != NULL {
        OwnedFree(heap.strings, conf.path, live.path);
        heap.Free(conf.path);
        conf := conf.(path := NULL);
      }
      if live.path == NULL {
        OwnedCopy(heap.strings, NULL, at, name);
        heap.Copy(name, at);
        live := live.(path := at);
        OwnedSwap(heap.strings, at, NULL);
        OwnedSwap(heap.strings, NULL, at);
        conf := conf.(path := at);
      } else {
        OwnedSwap(heap.strings, NULL, live.path);
        conf := conf.(path := live.path);
      }
    }

    method MakeWriter()
      requires ObjectsOwned() && logFile == None && writer == None && conf.path != NULL && conf.path in heap.strings
      modifies this`logFile, this`writer, this`objects, this`made
      ensures ObjectsOwned() && WriterLinked()
      ensures logFile.value.id >= old(made) && writer.value.id >= old(made) && made >= old(made)
    {
      var id := Make();
      logFile := Some(LogFile(id, heap.strings[conf.path]));
      id := Make();
      writer := Some(Writer(id, logFile.value.id));
    }

    method RebuildBuffer()
      requires ObjectsOwned() && writer.Some?
      modifies this`conf, this`buffer, this`objects, this`made
      ensures buffer.Some? && buffer.value.id >= old(made) && made >= old(made)
      ensures ObjectsOwned() && BufferLinked() && conf == old(conf).(maxFrames := live.maxFrames)
    {
      if buffer.Some? {
        Delete(buffer.value.id);
        buffer := None;
      }
      conf := conf.(maxFrames := live.maxFrames);
      var id := Make();
      buffer := Some(Buffer(id, writer.value.id, conf.maxFrames));
    }

    method RebuildProcessor()
      requires ObjectsOwned() && writer.Some? && buffer.Some? && live.min > 0
      modifies this`conf, this`handler, this`processor, this`objects, this`made
      ensures handler.Some? && processor.Some? && handler.value.id >= old(made) && processor.value.id >= old(made)
      ensures ObjectsOwned() && ProcessorLinked() && conf == old(conf).(min := live.min, max := live.max)
    {
      hide InUse, ProcessorInterval;
      DropProcessor();
      conf := conf.(min := live.min);
      conf := conf.(max := live.max);
      MakeProcessor();
    }

    method DropProcessor()
      requires ObjectsOwned()
      modifies this`handler, this`processor, this`objects
      ensures ObjectsOwned() && handler == None && processor == None
    {
      if processor.Some? {
        Delete(processor.value.id);
        processor := None;
      }
      if handler.Some? {
        Delete(handler.value.id);
        handler := None;
      }
    }

    method MakeProcessor()
      requires ObjectsOwned() && handler == None && processor == None && writer.Some? && buffer.Some? && conf.min > 0
      modifies this`handler, this`processor, this`objects, this`made
      ensures handler.Some? && processor.Some? && handler.value.id >= old(made) && processor.value.id >= old(made)
      ensures ObjectsOwned() && ProcessorLinked()
    {
      hide ProcessorInterval;
      var id := Make();
      handler := Some(Handler(id, conf.min, conf.max));
      id := Make();
      processor := Some(Processor(id, writer.value.id, buffer.value.id, handler.value.id, ProcessorInterval(conf.min)));
    }

    /** Starting a running profiler changes nothing. */
    method Start(at: nat, name: string)
      requires Valid() && at != NULL && (at !in heap.strings || (live.path == NULL && at == conf.path))
      modifies this, heap
      ensures Valid() && running && conf == live
      ensures old(running) ==> conf == old(conf) && objects == old(objects) && heap.strings == old(heap.strings)
      ensures live == old(live).(path := live.path) && (old(live).path != NULL ==> live.path == old(live).path)
    {
      if running {
        return;
      }
      if reloadConfig {
        Configure(at, name);
      }
      running := true;
    }

    method Stop()
      requires Valid()
      modifies this`running
      ensures Valid() && !running
    {
      running := false;
    }

    /** The destructor, and after it that of the agent's configuration: every string is freed. */
    method Unload()
      requires Valid()
      modifies this, heap
      ensures heap.strings == map[] && heap.copies == heap.frees == old(heap.copies)
      ensures objects == {}
    {
      hide Owned;
      OwnedSwap(heap.strings, conf.path, live.path);
      OwnedSwap(heap.strings, live.path, conf.path);
      if live.path == conf.path {
        conf := conf.(path := NULL);
      }
      DeleteAll();
      if conf.path != NULL {
        OwnedFree(heap.strings, conf.path, live.path);
        heap.Free(conf.path);
        conf := conf.(path := NULL);
      }
      OwnedSwap(heap.strings, NULL, live.path);
      if live.path != NULL {
        OwnedSwap(heap.strings, live.path, NULL);
        OwnedFree(heap.strings, live.path, NULL);
        heap.Free(live.path);
      }
      OwnedSwap(heap.strings, NULL, NULL);
    }

    method DeleteAll()
      requires ObjectsOwned() && logFile.Some? && writer.Some? && buffer.Some? && handler.Some? && processor.Some?
      modifies this`objects
      ensures objects == {}
    {
      Delete(processor.value.id);
      Delete(handler.value.id);
      Delete(buffer.value.id);
      Delete(writer.value.id);
      Delete(logFile.value.id);
    }

    method Make() returns (id: nat)
      modifies this`objects, this`made
      ensures id == old(made) && made == id + 1 && objects == old(objects) + {id}
    {
      id := made;
      made := made + 1;
      objects := objects + {id};
    }

    method Delete(id: nat)
      requires id in objects
      modifies this`objects
      ensures objects == old(objects) - {id}
    {
      objects := objects - {id};
    }
  }

  /** The two arguments in order, 1 in place of what is not positive. */
  function WithInterval(c: Config, min: int, max: int): (r: Config)
    ensures r.min <= r.max && r == c.(min := r.min, max := r.max)
    ensures multiset{r.min, r.max} == multiset{if min > 0 then min else 1, if max > 0 then max else 1}
    ensures 1 <= r.min
  {
    var a, b := OrDefault(min, DEFAULT_SAMPLING_INTERVAL), OrDefault(max, DEFAULT_SAMPLING_INTERVAL);
    c.(min := Least(a, b), max := Greatest(a, b))
  }

  /** The argument from 1 to 2047, and 128 otherwise. */
  function WithMaxFrames(c: Config, n: int): (r: Config)
    ensures r == c.(maxFrames := r.maxFrames)
    ensures 1 <= n <= 2047 ==> r.maxFrames == n
    ensures n < 1 || n > 2047 ==> r.maxFrames == 128
  {
    c.(maxFrames := if 0 < n < MAX_FRAMES then n else DEFAULT_MAX_FRAMES)
  }

  // ---- Whole sessions -------------------------------------------------------------------------------

  datatype Command =
    | SetInterval(min: int, max: int)
    | SetFrames(n: int)
    | SetPath(path: Option<string>)
    | DoStart(name: string)         // the name made up when there is no path
    | DoStop

  /** An allocator: any choice of an address that is not in use. It may depend on how often it was asked
      before, and so on all that happened before. */
  ghost predicate Allocates(choose: (nat, map<nat, string>) -> nat) {
    forall times, strings :: choose(times, strings) != NULL && choose(times, strings) !in strings
  }

  /** The strings that are left when an address is asked for. */
  function Without(strings: map<nat, string>, freed: nat): map<nat, string> { strings - {freed} }

  /** Any commands, in any order and of any number, and the unloading of the agent: no string is freed
      that is not allocated, and in the end as many are freed as were copied, and none is left. */
  method Session(choose: (nat, map<nat, string>) -> nat, min: int, max: int, path: Option<string>, maxFrames: int,
                 firstName: string, commands: seq<Command>)
    returns (left: map<nat, string>, copies: nat, frees: nat)
    requires Allocates(choose)
    ensures left == map[] && copies == frees >= 1
  {
    hide Owned, InUse, IsBuffer, IsProcessor;
    var heap := new Strings();
    var start := NULL;
    if path.Some? {
      start := choose(0, heap.strings);
      heap.Copy(path.value, start);
    }
    var at := choose(1, heap.strings);
    var profiler := new Profiler(heap, Config(min, max, start, maxFrames), at, firstName);
    Perform(profiler, choose, commands);
    profiler.Unload();
    left, copies, frees := heap.strings, heap.copies, heap.frees;
  }

  method Perform(profiler: Profiler, choose: (nat, map<nat, string>) -> nat, commands: seq<Command>)
    requires profiler.Valid() && profiler.heap.copies >= 1 && Allocates(choose)
    modifies profiler, profiler.heap
    ensures profiler.Valid() && profiler.heap.copies >= 1
  {
    hide Owned, InUse, IsBuffer, IsProcessor, InRange;
    var n := 0;
    while n < |commands|
      invariant 0 <= n <= |commands| && profiler.Valid() && profiler.heap.copies >= 1
    {
      match commands[n] {
        case SetInterval(min, max) => profiler.SetSamplingInterval(min, max);
        case SetFrames(frames) => profiler.SetMaxFramesToCapture(frames);
        case SetPath(path) =>
          var gone := if profiler.live.path == profiler.conf.path then NULL else profiler.live.path;
          var at := choose(n + 2, Without(profiler.heap.strings, gone));
          profiler.SetFilePath(path, at);
        case DoStart(name) =>
          var gone := if profiler.live.path == NULL then profiler.conf.path else NULL;
          var at := choose(n + 2, Without(profiler.heap.strings, gone));
          profiler.Start(at, name);
        case DoStop => profiler.Stop();
      }
      n := n + 1;
    }
  }
}
