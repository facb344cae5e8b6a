/** What the workers of a migration do to the cells, while other threads still write to the table
    being emptied. The worker protocol is that of `MigrationWorkers`; here each worker inside
    migrateRange also has a position in its chunk and may hold one entry in its hand. Links between cells play no part. */
module MigrationCells {
  import Runs
  import opened Chains
  import opened Options
  import W = MigrationWorkers

  datatype Hand = Nothing | Holding(h: int, v: int)
  datatype Task = Task(pos: nat, hand: Hand)

  /** Where an entry can be: in a source cell, in a cell of the new table, or with a worker. */
  datatype Place = Src(s: nat, b: nat) | Dst(b: nat) | With(w: nat)

  /** `contents` is the map the threads see; `home` and `roots` are history: the place of every hash
      that has one, and the cell of every hash of the first table. */
  datatype State = State(
    run: W.Run,
    tables: seq<seq<Cell>>, dest: seq<Cell>, tasks: map<nat, Task>,
    contents: map<int, int>, home: map<int, Place>, roots: map<int, nat>)

  datatype Action =
    | Protocol(a: W.Action)             // an access to the shared counters
    | Skip(w: nat)                      // the cell was given up in an earlier run
    | Take(w: nat)                      // CAS of the cell's value to Move
    | PlaceAt(w: nat, b: nat)           // the entry in hand enters the new table
    | PutBack(w: nat)                   // the new table is full: the value goes back, the range fails
    | EndRange(w: nat)                  // the chunk is done
    | Allocate(b: nat, h: int)          // another thread allocates a cell of the first table
    | Write(b: nat, v: int)             // another thread writes or erases a value there
    | Restart(w: nat)                   // the last worker of an overflowed run starts the next one

  predicate CellOf(st: State, w: nat) {
    && w in st.run.workers && st.run.workers[w].Working? && w in st.tasks
    && st.run.workers[w].s < |st.tables| && st.tasks[w].pos < |st.tables[st.run.workers[w].s]|
    && st.tasks[w].pos < CHUNK * st.run.workers[w].c + CHUNK
  }

  predicate Enabled(st: State, a: Action) {
    match a
    case Protocol(p) =>
      // A range ends by EndRange or PutBack, an overflowed run by Restart.
      W.Enabled(st.run, p) && !p.Succeed? && !p.Fail? && !p.Peek? && !p.Conclude?
    case Skip(w) =>
      CellOf(st, w) && st.tasks[w].hand.Nothing? && st.tables[st.run.workers[w].s][st.tasks[w].pos].value == MOVED
    case Take(w) =>
      CellOf(st, w) && st.tasks[w].hand.Nothing? && st.tables[st.run.workers[w].s][st.tasks[w].pos].value != MOVED
    case PlaceAt(w, b) =>
      CellOf(st, w) && st.tasks[w].hand.Holding? && b < |st.dest| && st.dest[b].hash == EMPTY_HASH
    case PutBack(w) =>
      CellOf(st, w) && st.tasks[w].hand.Holding? && W.Enabled(st.run, W.Fail(w))
    case EndRange(w) =>
      w in st.run.workers && st.run.workers[w].Working? && w in st.tasks && st.tasks[w].hand.Nothing?
      && st.tasks[w].pos == CHUNK * st.run.workers[w].c + CHUNK && W.Enabled(st.run, W.Succeed(w))
    case Allocate(b, h) =>
      |st.tables| > 0 && b < |st.tables[0]| && st.tables[0][b].hash == EMPTY_HASH
      && h != EMPTY_HASH && (forall c | 0 <= c < |st.tables[0]| :: st.tables[0][c].hash != h)
    case Write(b, v) =>
      |st.tables| > 0 && b < |st.tables[0]| && st.tables[0][b].hash != EMPTY_HASH
      && st.tables[0][b].value != MOVED && v != MOVED
    case Restart(w) =>
      // Whoever comes to the old run still finds its flag set and touches no cell.
      w in st.run.workers && st.run.workers[w].Last? && st.run.overflowed
  }

  function SetCell(st: State, s: nat, b: nat, c: Cell): State
    requires s < |st.tables| && b < |st.tables[s]|
  {
    st.(tables := st.tables[s := st.tables[s][b := c]])
  }

  function FreshRun(chunks: seq<nat>): W.Run {
    W.Run(chunks, seq(|chunks|, _ => 0), W.SumOf(chunks), 0, false, false, false,
          map[], [], map[], {}, None, 0, 0, 0)
  }

  function Renamed(p: Place, n: nat): Place {
    if p.Dst? then Src(n, p.b) else p
  }

  function Next(st: State, a: Action): State
    requires Enabled(st, a)
  {
    match a
    case Protocol(p) =>
      var r := W.Next(st.run, p);
      st.(run := r,
          tasks := if p.Fetch? && r.workers[p.w].Working? then st.tasks[p.w := Task(CHUNK * r.workers[p.w].c, Nothing)]
                   else st.tasks)
    case Skip(w) => st.(tasks := st.tasks[w := Task(st.tasks[w].pos + 1, Nothing)])
    case Take(w) =>
      var s, pos := st.run.workers[w].s, st.tasks[w].pos;
      var c := st.tables[s][pos];
      var taken := SetCell(st, s, pos, c.(value := MOVED));
      if c.value == NO_VALUE then
        taken.(tasks := st.tasks[w := Task(pos + 1, Nothing)], home := st.home - {c.hash})
      else
        taken.(tasks := st.tasks[w := Task(pos, Holding(c.hash, c.value))], home := st.home[c.hash := With(w)])
    case PlaceAt(w, b) =>
      var task := st.tasks[w];
      st.(dest := st.dest[b := st.dest[b].(hash := task.hand.h, value := task.hand.v)],
          tasks := st.tasks[w := Task(task.pos + 1, Nothing)],
          home := st.home[task.hand.h := Dst(b)])
    case PutBack(w) =>
      var s, task := st.run.workers[w].s, st.tasks[w];
      SetCell(st, s, task.pos, st.tables[s][task.pos].(value := task.hand.v)).(
        run := W.Next(st.run, W.Fail(w)), tasks := st.tasks - {w}, home := st.home[task.hand.h := Src(s, task.pos)])
    case EndRange(w) =>
      st.(run := W.Next(st.run, W.Succeed(w)), tasks := st.tasks - {w})
    case Allocate(b, h) =>
      SetCell(st, 0, b, st.tables[0][b].(hash := h)).(
        roots := st.roots[h := b],
        home := if st.tables[0][b].value == MOVED then st.home else st.home[h := Src(0, b)])
    case Write(b, v) =>
      var h := st.tables[0][b].hash;
      SetCell(st, 0, b, st.tables[0][b].(value := v)).(
        contents := if v == NO_VALUE then st.contents - {h} else st.contents[h := v])
    case Restart(w) =>
      var n := |st.tables|;
      st.(run := FreshRun(st.run.chunks + [|st.dest| / CHUNK]),
          tables := st.tables + [st.dest],
          dest := seq(2 * |st.dest|, _ => FRESH_CELL),
          tasks := map[],
          home := map h | h in st.home :: Renamed(st.home[h], n))
  }

  // ---- The invariant ------------------------------------------------------------------------

  datatype Owned = Unowned | Owned(h: int, v: int)

  /** The hash, with its value, that a place answers for. */
  function OwnedAt(st: State, p: Place): Owned {
    match p
    case Src(s, b) =>
      if s < |st.tables| && b < |st.tables[s]| && st.tables[s][b].hash != EMPTY_HASH && st.tables[s][b].value != MOVED
      then Owned(st.tables[s][b].hash, st.tables[s][b].value) else Unowned
    case Dst(b) =>
      if b < |st.dest| && st.dest[b].hash != EMPTY_HASH then Owned(st.dest[b].hash, st.dest[b].value) else Unowned
    case With(w) =>
      if w in st.tasks && st.tasks[w].hand.Holding? then Owned(st.tasks[w].hand.h, st.tasks[w].hand.v) else Unowned
  }

  /** Every hash is answered for in one place, and what the places hold is exactly `contents`. */
  ghost predicate Conserved(st: State) {
    && (forall p: Place :: OwnedAt(st, p).Owned? ==> OwnedAt(st, p).h in st.home && st.home[OwnedAt(st, p).h] == p)
    && (forall h | h in st.home ::
          var o := OwnedAt(st, st.home[h]);
          o.Owned? && o.h == h && (h in st.contents <==> o.v != NO_VALUE) && (h in st.contents ==> st.contents[h] == o.v))
    && (forall h | h in st.contents :: h in st.home)
  }

  /** A cell of a source that was never allocated has no value. */
  ghost predicate SourceOk(cells: seq<Cell>) {
    forall b | 0 <= b < |cells| && cells[b].hash == EMPTY_HASH :: cells[b].value == NO_VALUE || cells[b].value == MOVED
  }

  /** The new table holds live entries only. */
  ghost predicate DestOk(cells: seq<Cell>) {
    forall b | 0 <= b < |cells| ::
      if cells[b].hash == EMPTY_HASH then cells[b].value == NO_VALUE
      else cells[b].value != NO_VALUE && cells[b].value != MOVED
  }

  ghost predicate WellFormed(st: State) {
    && |st.tables| == |st.run.chunks| > 0
    && (forall s | 0 <= s < |st.tables| :: |st.tables[s]| == CHUNK * st.run.chunks[s])
    && |st.dest| > 0 && |st.dest| % CHUNK == 0
    && (forall s | 0 <= s < |st.tables| :: SourceOk(st.tables[s]))
    && DestOk(st.dest)
  }

  /** The cells [from, to) are given up. */
  ghost predicate Gone(cells: seq<Cell>, from: nat, to: nat) {
    to <= |cells| && forall b | from <= b < to :: cells[b].value == MOVED
  }

  /** A worker in chunk c has given up all cells before its position, and the one it holds. */
  ghost predicate Doing(cells: seq<Cell>, c: nat, t: Task) {
    && CHUNK * c <= t.pos <= CHUNK * c + CHUNK <= |cells|
    && Gone(cells, CHUNK * c, t.pos)
    && (t.hand.Holding? ==>
          && t.pos < CHUNK * c + CHUNK && cells[t.pos].value == MOVED
          && cells[t.pos].hash == t.hand.h != EMPTY_HASH
          && t.hand.v != NO_VALUE && t.hand.v != MOVED)
  }

  ghost predicate TaskOk(st: State, w: nat)
    requires w in st.run.workers && st.run.workers[w].Working?
  {
    && w in st.tasks && st.run.workers[w].s < |st.tables|
    && Doing(st.tables[st.run.workers[w].s], st.run.workers[w].c, st.tasks[w])
  }

  ghost predicate UnitGone(st: State, u: W.Unit) {
    u.0 < |st.tables| && Gone(st.tables[u.0], CHUNK * u.1, CHUNK * u.1 + CHUNK)
  }

  ghost predicate Tasks(st: State) {
    && (forall w | w in st.run.workers && st.run.workers[w].Working? :: TaskOk(st, w))
    && (forall w | w in st.tasks :: w in st.run.workers && st.run.workers[w].Working?)
    && (forall u: W.Unit | u in st.run.log :: UnitGone(st, u))
  }

  ghost predicate Roots(st: State) {
    && |st.tables| > 0 && EMPTY_HASH !in st.roots
    && (forall b | 0 <= b < |st.tables[0]| && st.tables[0][b].hash != EMPTY_HASH ::
          st.tables[0][b].hash in st.roots && st.roots[st.tables[0][b].hash] == b)
    && (forall h | h in st.roots :: st.roots[h] < |st.tables[0]| && st.tables[0][st.roots[h]].hash == h)
    && (forall h | h in st.home :: h in st.roots)
  }

  ghost predicate Inv(st: State) {
    W.Inv(st.run) && WellFormed(st) && Tasks(st) && Roots(st) && Conserved(st)
  }

  /** A migration begins with one source, which holds the whole map, and an empty destination. */
  ghost predicate Init(st: State) {
    && W.Init(st.run) && |st.tables| == 1 && WellFormed(st)
    && (forall b | 0 <= b < |st.dest| :: st.dest[b] == FRESH_CELL)
    && (forall b | 0 <= b < |st.tables[0]| :: st.tables[0][b].value != MOVED)
    && st.tasks == map[] && Roots(st)
    && st.home == (map h | h in st.roots :: Src(0, st.roots[h]))
    && Conserved(st)
  }

  lemma InitInv(st: State)
    requires Init(st)
    ensures Inv(st)
  {
    W.InitInv(st.run);
  }

  // ---- What every step keeps --------------------------------------------------------------------

  /** Two workers inside migrateRange, or one and a finished chunk, are about different chunks. */
  lemma ChunksApart(r: W.Run, w: nat)
    requires W.Inv(r) && w in r.workers && r.workers[w].Working?
    ensures W.IsUnit(r, (r.workers[w].s, r.workers[w].c)) && (r.workers[w].s, r.workers[w].c) !in r.log
    ensures forall v | v in r.workers && r.workers[v].Working? && v != w ::
              (r.workers[v].s, r.workers[v].c) != (r.workers[w].s, r.workers[w].c)
  {
  }

  lemma WellFormedKeeps(st: State, a: Action)
    requires Inv(st) && Enabled(st, a)
    ensures WellFormed(Next(st, a))
  {
    hide W.Inv, W.Enabled, Conserved, Roots, Tasks, WellFormed, Next;
    match a
    case Take(w) => TakeWellFormed(st, w);
    case PutBack(w) => PutBackWellFormed(st, w);
    case Write(b, v) => OtherWellFormed(st, a);
    case Allocate(b, h) => OtherWellFormed(st, a);
    case PlaceAt(w, b) => PlaceWellFormed(st, w, b);
    case Restart(w) => RestartWellFormed(st, w);
    case _ => SharedWellFormed(st, a);
  }

  lemma SharedWellFormed(st: State, a: Action)
    requires Inv(st) && Enabled(st, a) && (a.Protocol? || a.Skip? || a.EndRange?)
    ensures WellFormed(Next(st, a))
  {
    hide W.Inv, W.Enabled, Conserved, Roots, Tasks, SourceOk, DestOk;
  }

  lemma PlaceWellFormed(st: State, w: nat, b: nat)
    requires Inv(st) && Enabled(st, PlaceAt(w, b))
    ensures WellFormed(Next(st, PlaceAt(w, b)))
  {
    hide W.Inv, W.Enabled, Conserved, Roots, SourceOk;
    assert TaskOk(st, w);
  }

  lemma RestartWellFormed(st: State, w: nat)
    requires Inv(st) && Enabled(st, Restart(w))
    ensures WellFormed(Next(st, Restart(w)))
  {
    var st' := Next(st, Restart(w));
    assert WellFormed(st) && st'.tables == st.tables + [st.dest] && st'.dest == seq(2 * |st.dest|, _ => FRESH_CELL)
           && st'.run.chunks == st.run.chunks + [|st.dest| / CHUNK] by {
      hide W.Inv, W.Enabled, Conserved, Roots, Tasks, SourceOk, DestOk;
    }
    hide Inv, Enabled, Next, WellFormed;
    RestartShape(st, st', w);
  }

  lemma RestartShape(st: State, st': State, w: nat)
    requires WellFormed(st) && st'.tables == st.tables + [st.dest] && st'.dest == seq(2 * |st.dest|, _ => FRESH_CELL)
    requires st'.run.chunks == st.run.chunks + [|st.dest| / CHUNK]
    ensures WellFormed(st')
  {
    hide SourceOk, DestOk;
    assert SourceOk(st.dest) by { DestIsSource(st.dest); }
    assert DestOk(st'.dest) by { FreshIsOk(2 * |st.dest|); }
    forall s | 0 <= s < |st'.tables|
      ensures |st'.tables[s]| == CHUNK * st'.run.chunks[s] && SourceOk(st'.tables[s])
    {
      assert s < |st.tables| ==> st'.tables[s] == st.tables[s];
    }
  }

  lemma DestIsSource(cells: seq<Cell>)
    requires DestOk(cells)
    ensures SourceOk(cells)
  {
  }

  lemma FreshIsOk(n: nat)
    ensures DestOk(seq(n, _ => FRESH_CELL))
  {
  }


  lemma TakeWellFormed(st: State, w: nat)
    requires Inv(st) && Enabled(st, Take(w))
    ensures WellFormed(Next(st, Take(w)))
  {
    var s, b := st.run.workers[w].s, st.tasks[w].pos;
    hide W.Inv, Conserved, Roots, Tasks, WellFormed;
    SourceSet(st, Next(st, Take(w)), s, b, st.tables[s][b].(value := MOVED));
  }

  lemma PutBackWellFormed(st: State, w: nat)
    requires Inv(st) && Enabled(st, PutBack(w))
    ensures WellFormed(Next(st, PutBack(w)))
  {
    HeldIsHashed(st, w);
    hide Inv, W.Enabled, W.Next, WellFormed;
    var s, b := st.run.workers[w].s, st.tasks[w].pos;
    assert W.Next(st.run, W.Fail(w)).chunks == st.run.chunks by { ProtocolChunks(st.run, W.Fail(w)); }
    SourceSet(st, Next(st, PutBack(w)), s, b, st.tables[s][b].(value := st.tasks[w].hand.v));
  }

  lemma HeldIsHashed(st: State, w: nat)
    requires Inv(st) && CellOf(st, w) && st.tasks[w].hand.Holding?
    ensures st.tables[st.run.workers[w].s][st.tasks[w].pos].hash != EMPTY_HASH && WellFormed(st)
  {
    assert TaskOk(st, w);
  }

  lemma ProtocolChunks(r: W.Run, p: W.Action)
    requires W.Enabled(r, p)
    ensures W.Next(r, p).chunks == r.chunks
  {
  }

  lemma OtherWellFormed(st: State, a: Action)
    requires Inv(st) && Enabled(st, a) && (a.Write? || a.Allocate?)
    ensures WellFormed(Next(st, a))
  {
    hide W.Inv, Conserved, Roots, Tasks, WellFormed;
    var c := st.tables[0][a.b];
    SourceSet(st, Next(st, a), 0, a.b, if a.Write? then c.(value := a.v) else c.(hash := a.h));
  }

  lemma SourceSet(st: State, st': State, s: nat, b: nat, c: Cell)
    requires WellFormed(st) && s < |st.tables| && b < |st.tables[s]|
    requires c.hash == EMPTY_HASH ==> c.value == NO_VALUE || c.value == MOVED
    requires st'.tables == st.tables[s := st.tables[s][b := c]] && st'.dest == st.dest && st'.run.chunks == st.run.chunks
    ensures WellFormed(st')
  {
    hide DestOk;
    assert SourceOk(st.tables[s]);
    assert SourceOk(st.tables[s][b := c]);
  }

  /** An entry goes from place p to place q. */
  lemma Carried(st: State, st': State, h: int, p: Place, q: Place)
    requires Conserved(st) && h in st.home && st.home[h] == p && p != q
    requires OwnedAt(st, q).Unowned? && OwnedAt(st', p).Unowned? && OwnedAt(st', q) == OwnedAt(st, p)
    requires forall r: Place | r != p && r != q :: OwnedAt(st', r) == OwnedAt(st, r)
    requires st'.home == st.home[h := q] && st'.contents == st.contents
    ensures Conserved(st')
  {
    hide OwnedAt;
    forall g | g in st'.home
      ensures var o := OwnedAt(st', st'.home[g]);
              o.Owned? && o.h == g && (g in st.contents <==> o.v != NO_VALUE) && (g in st.contents ==> st.contents[g] == o.v)
    {
      if g != h {
        assert OwnedAt(st, st.home[g]).h == g;
      }
    }
    forall r: Place | OwnedAt(st', r).Owned?
      ensures OwnedAt(st', r).h in st'.home && st'.home[OwnedAt(st', r).h] == r
    {
      if r != q {
        assert OwnedAt(st, r).Owned?;
      }
    }
  }

  /** What place p answers for changes, and the map with it. */
  lemma Changed(st: State, st': State, p: Place, h: int)
    requires Conserved(st)
    requires forall r: Place | r != p :: OwnedAt(st', r) == OwnedAt(st, r)
    requires if h in st.home then st.home[h] == p else OwnedAt(st, p).Unowned?
    requires match OwnedAt(st', p)
             case Unowned =>
               st'.home == st.home - {h} && st'.contents == st.contents && h !in st.contents
             case Owned(g, v) =>
               && g == h && st'.home == st.home[h := p]
               && st'.contents == if v == NO_VALUE then st.contents - {h} else st.contents[h := v]
    ensures Conserved(st')
  {
    hide OwnedAt;
    forall g | g in st'.home
      ensures var o := OwnedAt(st', st'.home[g]);
              o.Owned? && o.h == g && (g in st'.contents <==> o.v != NO_VALUE) && (g in st'.contents ==> st'.contents[g] == o.v)
    {
      if g != h {
        assert OwnedAt(st, st.home[g]).h == g;
      }
    }
    forall r: Place | OwnedAt(st', r).Owned?
      ensures OwnedAt(st', r).h in st'.home && st'.home[OwnedAt(st', r).h] == r
    {
      if r != p {
        assert OwnedAt(st, r).Owned?;
      }
    }
  }

  lemma Untouched(st: State, st': State)
    requires Conserved(st)
    requires forall r: Place :: OwnedAt(st', r) == OwnedAt(st, r)
    requires st'.home == st.home && st'.contents == st.contents
    ensures Conserved(st')
  {
    hide OwnedAt;
    assert forall r: Place | OwnedAt(st', r).Owned? :: OwnedAt(st, r).Owned?;
  }

  lemma ConservedKeeps(st: State, a: Action)
    requires Inv(st) && Enabled(st, a)
    ensures Conserved(Next(st, a))
  {
    hide WellFormed, Tasks, Roots, Conserved, W.Inv, W.Enabled, Next;
    match a
    case Protocol(p) => ProtocolConserves(st, p);
    case Skip(w) => IdleConserves(st, a);
    case EndRange(w) => IdleConserves(st, a);
    case Take(w) => TakeConserves(st, w);
    case PlaceAt(w, b) => PlaceConserves(st, w, b);
    case PutBack(w) => PutBackConserves(st, w);
    case Allocate(b, h) => AllocateConserves(st, b, h);
    case Write(b, v) => WriteConserves(st, b, v);
    case Restart(w) => RestartConserves(st, w);
  }

  lemma ProtocolConserves(st: State, p: W.Action)
    requires Inv(st) && Enabled(st, Protocol(p))
    ensures Conserved(Next(st, Protocol(p)))
  {
    hide W.Inv, Conserved, Roots, WellFormed;
    Untouched(st, Next(st, Protocol(p)));
  }

  lemma IdleConserves(st: State, a: Action)
    requires Inv(st) && Enabled(st, a) && (a.Skip? || a.EndRange?)
    ensures Conserved(Next(st, a))
  {
    hide W.Inv, W.Enabled, W.Next, Conserved, Roots, WellFormed;
    Untouched(st, Next(st, a));
  }

  lemma TakeConserves(st: State, w: nat)
    requires Inv(st) && Enabled(st, Take(w))
    ensures Conserved(Next(st, Take(w)))
  {
    hide W.Inv, W.Enabled;
    var st' := Next(st, Take(w));
    var p := Src(st.run.workers[w].s, st.tasks[w].pos);
    var c := st.tables[p.s][p.b];
    if c.hash == EMPTY_HASH {
      assert EMPTY_HASH !in st.home;
      Untouched(st, st');
    } else {
      assert OwnedAt(st, p) == Owned(c.hash, c.value);
      if c.value == NO_VALUE {
        Changed(st, st', p, c.hash);
      } else {
        Carried(st, st', c.hash, p, With(w));
      }
    }
  }

  lemma PlaceConserves(st: State, w: nat, b: nat)
    requires Inv(st) && Enabled(st, PlaceAt(w, b))
    ensures Conserved(Next(st, PlaceAt(w, b)))
  {
    hide W.Inv, W.Enabled;
    assert TaskOk(st, w);
    assert OwnedAt(st, With(w)) == Owned(st.tasks[w].hand.h, st.tasks[w].hand.v);
    Carried(st, Next(st, PlaceAt(w, b)), st.tasks[w].hand.h, With(w), Dst(b));
  }

  lemma PutBackConserves(st: State, w: nat)
    requires Inv(st) && Enabled(st, PutBack(w))
    ensures Conserved(Next(st, PutBack(w)))
  {
    hide W.Inv, W.Enabled, W.Next;
    assert TaskOk(st, w);
    assert OwnedAt(st, With(w)) == Owned(st.tasks[w].hand.h, st.tasks[w].hand.v);
    Carried(st, Next(st, PutBack(w)), st.tasks[w].hand.h, With(w), Src(st.run.workers[w].s, st.tasks[w].pos));
  }

  lemma AllocateConserves(st: State, b: nat, h: int)
    requires Inv(st) && Enabled(st, Allocate(b, h))
    ensures Conserved(Next(st, Allocate(b, h)))
  {
    hide W.Inv, W.Enabled;
    var st' := Next(st, Allocate(b, h));
    assert h !in st.home && h !in st.contents;
    if st.tables[0][b].value == MOVED {
      Untouched(st, st');
    } else {
      Changed(st, st', Src(0, b), h);
    }
  }

  lemma WriteConserves(st: State, b: nat, v: int)
    requires Inv(st) && Enabled(st, Write(b, v))
    ensures Conserved(Next(st, Write(b, v)))
  {
    hide W.Inv, W.Enabled;
    var h := st.tables[0][b].hash;
    assert OwnedAt(st, Src(0, b)) == Owned(h, st.tables[0][b].value);
    assert st.home == st.home[h := Src(0, b)];
    Changed(st, Next(st, Write(b, v)), Src(0, b), h);
  }

  /** When somebody has passed the last-worker test, nobody has a chunk any more. */
  lemma NobodyWorks(st: State, w: nat)
    requires Inv(st) && w in st.run.workers && st.run.workers[w].Last?
    ensures forall v | v in st.run.workers :: !st.run.workers[v].Working?
    ensures st.tasks == map[]
  {
    W.PastIsCounted(st.run, w);
    forall v | v in st.run.workers
      ensures !st.run.workers[v].Working?
    {
      assert W.LateOk(st.run, st.run.workers[v]);
    }
    assert forall v :: v !in st.tasks;
  }

  lemma RestartConserves(st: State, w: nat)
    requires Inv(st) && Enabled(st, Restart(w))
    ensures Conserved(Next(st, Restart(w)))
  {
    NobodyWorks(st, w);
    hide W.Inv, W.Enabled, Roots, Tasks, OwnedAt, SourceOk;
    var st' := Next(st, Restart(w));
    forall p: Place | OwnedAt(st', p).Owned?
      ensures OwnedAt(st', p).h in st'.home && st'.home[OwnedAt(st', p).h] == p
    {
      RestartPlace(st, w, p);
    }
    forall h | h in st'.home
      ensures OwnedAt(st', st'.home[h]) == OwnedAt(st, st.home[h])
    {
      RestartHome(st, w, st.home[h]);
    }
  }

  /** After a restart a place owns what it did before or, in the new source, what the destination did. */
  lemma RestartPlace(st: State, w: nat, p: Place)
    requires WellFormed(st) && Enabled(st, Restart(w)) && OwnedAt(Next(st, Restart(w)), p).Owned?
    ensures exists q :: OwnedAt(st, q) == OwnedAt(Next(st, Restart(w)), p) && Renamed(q, |st.tables|) == p
  {
    hide W.Inv, W.Enabled;
    var q := if p.s == |st.tables| then Dst(p.b) else p;
    assert OwnedAt(st, q) == OwnedAt(Next(st, Restart(w)), p);
  }

  lemma RestartHome(st: State, w: nat, p: Place)
    requires WellFormed(st) && Enabled(st, Restart(w)) && st.tasks == map[] && OwnedAt(st, p).Owned?
    ensures OwnedAt(Next(st, Restart(w)), Renamed(p, |st.tables|)) == OwnedAt(st, p)
  {
    hide W.Inv, W.Enabled;
  }

  lemma RootsKeeps(st: State, a: Action)
    requires Inv(st) && Enabled(st, a)
    ensures Roots(Next(st, a))
  {
    hide W.Inv, W.Enabled, W.Next, WellFormed;
    match a
    case Take(w) => TakeRoots(st, w);
    case PlaceAt(w, b) => HandRoots(st, w);
    case PutBack(w) => HandRoots(st, w);
    case _ => OtherRoots(st, a);
  }

  lemma OtherRoots(st: State, a: Action)
    requires Roots(st) && Enabled(st, a) && !a.Take? && !a.PlaceAt? && !a.PutBack?
    ensures Roots(Next(st, a))
  {
    hide W.Enabled, W.Next;
  }

  lemma TakeRoots(st: State, w: nat)
    requires Inv(st) && Enabled(st, Take(w))
    ensures Roots(Next(st, Take(w)))
  {
    hide W.Inv, W.Enabled, W.Next, Tasks;
    var p := Src(st.run.workers[w].s, st.tasks[w].pos);
    if st.tables[p.s][p.b].hash != EMPTY_HASH {
      assert OwnedAt(st, p).Owned?;
    }
  }

  lemma HandRoots(st: State, w: nat)
    requires Conserved(st) && Roots(st) && w in st.tasks && st.tasks[w].hand.Holding?
    ensures st.tasks[w].hand.h in st.roots
  {
    assert OwnedAt(st, With(w)).Owned?;
  }

  lemma TasksKeeps(st: State, a: Action)
    requires Inv(st) && Enabled(st, a)
    ensures Tasks(Next(st, a))
  {
    hide WellFormed, Tasks, Roots, Conserved, W.Inv, W.Enabled, Next;
    match a
    case Protocol(p) => ProtocolTasks(st, p);
    case Skip(w) => IdleTasks(st, a);
    case EndRange(w) => EndTasks(st, w);
    case Take(w) => TakeTasks(st, w);
    case PlaceAt(w, b) => IdleTasks(st, a);
    case PutBack(w) => PutBackTasks(st, w);
    case Allocate(b, h) => WriterTasks(st, a);
    case Write(b, v) => WriterTasks(st, a);
    case Restart(w) => RestartTasks(st, w);
  }

  /** Whatever the shared counters do, a worker in a chunk stays there, and only a draw adds one. */
  lemma ProtocolWorkers(r: W.Run, p: W.Action)
    requires W.Enabled(r, p) && !p.Succeed? && !p.Fail?
    ensures W.Next(r, p).log == r.log && W.Next(r, p).chunks == r.chunks
    ensures forall w | w != p.w :: w in W.Next(r, p).workers <==> w in r.workers
    ensures forall w | w != p.w && w in r.workers :: W.Next(r, p).workers[w] == r.workers[w]
    ensures p.w in r.workers ==> !r.workers[p.w].Working?
    ensures p.Fetch? ==> p.w in W.Next(r, p).workers
    ensures p.w in W.Next(r, p).workers && W.Next(r, p).workers[p.w].Working? ==>
              p.Fetch? && W.Next(r, p).workers[p.w].s < |r.chunks|
              && W.Next(r, p).workers[p.w].c < r.chunks[W.Next(r, p).workers[p.w].s]
  {
    hide W.Effect;
    assert W.Effect(r, p).log == r.log && W.Effect(r, p).chunks == r.chunks by { EffectOnLog(r, p); }
  }

  lemma EffectOnLog(r: W.Run, p: W.Action)
    requires W.Enabled(r, p) && !p.Succeed?
    ensures W.Effect(r, p).log == r.log && W.Effect(r, p).chunks == r.chunks
  {
  }

  lemma ProtocolTasks(st: State, p: W.Action)
    requires Inv(st) && Enabled(st, Protocol(p))
    ensures Tasks(Next(st, Protocol(p)))
  {
    hide Conserved, Roots, W.Inv, W.Enabled, W.Next, Doing, UnitGone;
    var st' := Next(st, Protocol(p));
    ProtocolWorkers(st.run, p);
    forall w | w in st'.run.workers && st'.run.workers[w].Working?
      ensures TaskOk(st', w)
    {
      if w == p.w {
        FreshTask(st.tables[st'.run.workers[w].s], st'.run.workers[w].c);
      } else {
        assert TaskOk(st, w);
      }
    }
    forall u: W.Unit | u in st'.run.log
      ensures UnitGone(st', u)
    {
      UnitGoneKept(st, st', u);
    }
  }

  lemma FreshTask(cells: seq<Cell>, c: nat)
    requires CHUNK * c + CHUNK <= |cells|
    ensures Doing(cells, c, Task(CHUNK * c, Nothing))
  {
  }

  lemma UnitGoneKept(st: State, st': State, u: W.Unit)
    requires UnitGone(st, u) && st'.tables == st.tables
    ensures UnitGone(st', u)
  {
  }

  lemma IdleTasks(st: State, a: Action)
    requires Inv(st) && Enabled(st, a) && (a.Skip? || a.PlaceAt?)
    ensures Tasks(Next(st, a))
  {
    hide Conserved, Roots, W.Inv, W.Enabled;
    var st' := Next(st, a);
    assert TaskOk(st, a.w);
    forall w | w in st'.run.workers && st'.run.workers[w].Working?
      ensures TaskOk(st', w)
    {
      assert TaskOk(st, w);
    }
  }

  lemma EndTasks(st: State, w: nat)
    requires Inv(st) && Enabled(st, EndRange(w))
    ensures Tasks(Next(st, EndRange(w)))
  {
    hide Conserved, Roots, W.Inv;
    var st' := Next(st, EndRange(w));
    assert TaskOk(st, w);
    assert UnitGone(st, (st.run.workers[w].s, st.run.workers[w].c));
    hide Gone, Doing;
    forall v | v in st'.run.workers && st'.run.workers[v].Working?
      ensures TaskOk(st', v)
    {
      assert TaskOk(st, v);
    }
    forall u: W.Unit | u in st'.run.log
      ensures UnitGone(st', u)
    {
      assert UnitGone(st, u);
    }
  }

  /** Giving up one more cell leaves what the other workers rely on. */
  lemma GivenUp(cells: seq<Cell>, b: nat)
    requires b < |cells|
    ensures var cells' := cells[b := cells[b].(value := MOVED)];
            && (forall c, t | Doing(cells, c, t) :: Doing(cells', c, t))
            && (forall from, to | Gone(cells, from, to) :: Gone(cells', from, to))
  {
  }

  lemma TakeTasks(st: State, w: nat)
    requires Inv(st) && Enabled(st, Take(w))
    ensures Tasks(Next(st, Take(w)))
  {
    hide Conserved, Roots, W.Inv, W.Enabled, Doing, Gone;
    var st' := Next(st, Take(w));
    var s, pos := st.run.workers[w].s, st.tasks[w].pos;
    GivenUp(st.tables[s], pos);
    forall v | v in st'.run.workers && st'.run.workers[v].Working?
      ensures TaskOk(st', v)
    {
      assert TaskOk(st, v);
      if v == w {
        Taken(st.tables[s], st.run.workers[w].c, st.tasks[w]);
      }
    }
    forall u: W.Unit | u in st'.run.log
      ensures UnitGone(st', u)
    {
      assert UnitGone(st, u);
    }
  }

  lemma Taken(cells: seq<Cell>, c: nat, t: Task)
    requires Doing(cells, c, t) && t.hand.Nothing? && t.pos < CHUNK * c + CHUNK && cells[t.pos].value != MOVED
    ensures var cell := cells[t.pos];
            var cells' := cells[t.pos := cell.(value := MOVED)];
            if cell.value == NO_VALUE then Doing(cells', c, Task(t.pos + 1, Nothing))
            else cell.hash != EMPTY_HASH ==> Doing(cells', c, Task(t.pos, Holding(cell.hash, cell.value)))
  {
  }

  /** Restoring a cell of chunk c leaves what is known of the other chunks. */
  lemma Restored(cells: seq<Cell>, c: nat, b: nat, v: int)
    requires b < |cells| && CHUNK * c <= b < CHUNK * c + CHUNK
    ensures var cells' := cells[b := cells[b].(value := v)];
            && (forall d: nat, t | Doing(cells, d, t) && d != c :: Doing(cells', d, t))
            && (forall from: nat, to: nat | Gone(cells, from, to) && (to <= CHUNK * c || CHUNK * c + CHUNK <= from) ::
                  Gone(cells', from, to))
  {
  }

  lemma PutBackTasks(st: State, w: nat)
    requires Inv(st) && Enabled(st, PutBack(w))
    ensures Tasks(Next(st, PutBack(w)))
  {
    hide Conserved, Roots, W.Inv, Gone;
    var st' := Next(st, PutBack(w));
    assert TaskOk(st, w);
    var s, c := st.run.workers[w].s, st.run.workers[w].c;
    ChunksApart(st.run, w);
    Restored(st.tables[s], c, st.tasks[w].pos, st.tasks[w].hand.v);
    hide Doing;
    forall v | v in st'.run.workers && st'.run.workers[v].Working?
      ensures TaskOk(st', v)
    {
      assert TaskOk(st, v);
    }
    forall u: W.Unit | u in st'.run.log
      ensures UnitGone(st', u)
    {
      assert UnitGone(st, u);
    }
  }

  /** Neither an allocation nor a write touches a cell that is given up. */
  lemma Elsewhere(cells: seq<Cell>, b: nat, cell: Cell)
    requires b < |cells| && if cells[b].value == MOVED then cells[b].hash == EMPTY_HASH && cell.value == MOVED else true
    ensures (forall c, t | Doing(cells, c, t) :: Doing(cells[b := cell], c, t))
    ensures (forall from, to | Gone(cells, from, to) :: Gone(cells[b := cell], from, to))
  {
  }

  lemma WriterTasks(st: State, a: Action)
    requires Inv(st) && Enabled(st, a) && (a.Allocate? || a.Write?)
    ensures Tasks(Next(st, a))
  {
    hide Conserved, Roots, W.Inv, W.Enabled, Doing, Gone;
    var st' := Next(st, a);
    Elsewhere(st.tables[0], a.b, st'.tables[0][a.b]);
    forall v | v in st'.run.workers && st'.run.workers[v].Working?
      ensures TaskOk(st', v)
    {
      assert TaskOk(st, v);
    }
    forall u: W.Unit | u in st'.run.log
      ensures UnitGone(st', u)
    {
      assert UnitGone(st, u);
    }
  }

  lemma RestartTasks(st: State, w: nat)
    requires Inv(st) && Enabled(st, Restart(w))
    ensures Tasks(Next(st, Restart(w)))
  {
    hide Conserved, Roots, W.Inv, W.Enabled, WellFormed;
  }

  lemma {:induction false} SumKeepsPrefix(xs: seq<nat>, y: nat, n: nat)
    requires n <= |xs|
    ensures W.SumTo(xs + [y], n) == W.SumTo(xs, n)
  {
    if n > 0 {
      SumKeepsPrefix(xs, y, n - 1);
    }
  }

  lemma ProtocolKeeps(st: State, a: Action)
    requires Inv(st) && Enabled(st, a)
    ensures W.Inv(Next(st, a).run)
  {
    hide W.Inv, Tasks, Roots, Conserved;
    match a
    case Protocol(p) => W.StepKeeps(st.run, p);
    case PutBack(w) => W.StepKeeps(st.run, W.Fail(w));
    case EndRange(w) => W.StepKeeps(st.run, W.Succeed(w));
    case Restart(w) => FreshRunOk(st.run.chunks, |st.dest| / CHUNK);
    case _ =>
  }

  lemma FreshRunOk(chunks: seq<nat>, more: nat)
    requires more > 0
    ensures W.Init(FreshRun(chunks + [more])) && W.Inv(FreshRun(chunks + [more]))
  {
    hide W.Inv;
    SumKeepsPrefix(chunks, more, |chunks|);
    W.InitInv(FreshRun(chunks + [more]));
  }

  lemma StepKeeps(st: State, a: Action)
    requires Inv(st) && Enabled(st, a)
    ensures Inv(Next(st, a))
  {
    hide W.Inv, WellFormed, Tasks, Roots, Conserved, Enabled, Next;
    ProtocolKeeps(st, a);
    WellFormedKeeps(st, a);
    TasksKeeps(st, a);
    RootsKeeps(st, a);
    ConservedKeeps(st, a);
  }

  // ---- Runs -------------------------------------------------------------------------------------

  ghost predicate Steps(st: State, st': State) {
    exists a :: Enabled(st, a) && st' == Next(st, a)
  }

  ghost predicate IsRun(run: seq<State>) { Runs.IsRun(run, Init, Steps) }

  lemma RunKeeps(run: seq<State>, k: nat)
    requires IsRun(run) && k < |run|
    ensures Inv(run[k])
  {
    hide Inv, Enabled, Next, Init;
    forall st | Init(st)
      ensures Inv(st)
    {
      InitInv(st);
    }
    forall st, st' | Inv(st) && Steps(st, st')
      ensures Inv(st')
    {
      var a :| Enabled(st, a) && st' == Next(st, a);
      StepKeeps(st, a);
    }
    Runs.Keeps(run, k, Init, Steps, Inv);
  }

  /** At every moment, through overflows and restarts, each live entry is in exactly one place: a
      source cell, a cell of the new table, or one worker's hand; and it has its value there. */
  lemma OnePlaceEach(run: seq<State>, k: nat, h: int)
    requires IsRun(run) && k < |run| && h in run[k].contents
    ensures exists p: Place ::
              && OwnedAt(run[k], p) == Owned(h, run[k].contents[h])
              && forall q: Place | OwnedAt(run[k], q).Owned? && OwnedAt(run[k], q).h == h :: q == p
  {
    RunKeeps(run, k);
    hide W.Inv, Tasks, Roots, WellFormed, OwnedAt;
    var p := run[k].home[h];
    assert OwnedAt(run[k], p) == Owned(h, run[k].contents[h]);
  }

  /** Nothing else is anywhere: a place holds a live entry with its value, or an erased one. */
  lemma NothingStale(run: seq<State>, k: nat, p: Place)
    requires IsRun(run) && k < |run| && OwnedAt(run[k], p).Owned?
    ensures var o := OwnedAt(run[k], p);
            if o.h in run[k].contents then o.v == run[k].contents[o.h] else o.v == NO_VALUE
  {
    RunKeeps(run, k);
    hide W.Inv, Tasks, Roots, WellFormed;
  }

  /** What a worker carries is not in the new table yet, so its insertion always allocates. */
  lemma CarriedIsNew(run: seq<State>, k: nat, w: nat)
    requires IsRun(run) && k < |run| && w in run[k].tasks && run[k].tasks[w].hand.Holding?
    ensures forall b | 0 <= b < |run[k].dest| :: run[k].dest[b].hash != run[k].tasks[w].hand.h
  {
    hide W.Inv, Tasks, Conserved, WellFormed, Roots, IsRun;
    RunKeeps(run, k);
    CarriedApart(run[k], w);
  }

  lemma CarriedApart(st: State, w: nat)
    requires Conserved(st) && Tasks(st) && w in st.tasks && st.tasks[w].hand.Holding?
    ensures forall b | 0 <= b < |st.dest| :: st.dest[b].hash != st.tasks[w].hand.h
  {
    assert OwnedAt(st, With(w)).Owned?;
    assert TaskOk(st, w);
    forall b: nat | b < |st.dest|
      ensures st.dest[b].hash != st.tasks[w].hand.h
    {
      var o := OwnedAt(st, Dst(b));
      assert o.Owned? ==> o.h in st.home && st.home[o.h] == Dst(b);
    }
  }

  function AllocatedIn(cells: seq<Cell>): set<nat> {
    set b: nat | b < |cells| && cells[b].hash != EMPTY_HASH
  }

  /** The new table holds exactly the entries of the map, each once and with its value. */
  ghost predicate Holds(cells: seq<Cell>, contents: map<int, int>) {
    && (forall b | 0 <= b < |cells| && cells[b].hash != EMPTY_HASH ::
          cells[b].hash in contents && contents[cells[b].hash] == cells[b].value)
    && (forall h | h in contents :: exists b :: 0 <= b < |cells| && cells[b].hash == h)
    && (forall b, c | 0 <= b < c < |cells| && cells[b].hash != EMPTY_HASH :: cells[c].hash != cells[b].hash)
  }

  lemma AllUnitsGone(st: State)
    requires Inv(st) && st.run.done && !st.run.overflowed
    ensures forall u: W.Unit | W.IsUnit(st.run, u) :: u in st.run.log
    ensures st.tasks == map[]
  {
    hide WellFormed, Roots, Conserved;
    W.LogFits(st.run);
    assert |W.Counters(st.run.workers)| >= 0;
    forall w | w in st.tasks
      ensures false
    {
      ChunksApart(st.run, w);
    }
  }

  lemma SourcesGone(st: State)
    requires Inv(st) && st.run.done && !st.run.overflowed
    ensures forall s, b | 0 <= s < |st.tables| && 0 <= b < |st.tables[s]| :: st.tables[s][b].value == MOVED
  {
    AllUnitsGone(st);
    hide Conserved, Roots, W.Inv;
    forall s: nat, b: nat | s < |st.tables| && b < |st.tables[s]|
      ensures st.tables[s][b].value == MOVED
    {
      var u: W.Unit := (s, b / CHUNK);
      assert W.IsUnit(st.run, u);
      assert UnitGone(st, u);
    }
  }

  /** When the flag is set and nothing overflowed, every source cell is given up and the new table
      is the map, with as many allocated cells as there are live entries. */
  lemma FinishedHolds(run: seq<State>, k: nat)
    requires IsRun(run) && k < |run| && run[k].run.done && !run[k].run.overflowed
    ensures forall s, b | 0 <= s < |run[k].tables| && 0 <= b < |run[k].tables[s]| :: run[k].tables[s][b].value == MOVED
    ensures Holds(run[k].dest, run[k].contents)
    ensures |AllocatedIn(run[k].dest)| == |run[k].contents|
  {
    RunKeeps(run, k);
    SourcesGone(run[k]);
    AllUnitsGone(run[k]);
    HoldsAll(run[k]);
    AllocatedIsLive(run[k].dest, run[k].contents);
  }

  lemma HoldsAll(st: State)
    requires WellFormed(st) && Conserved(st) && st.tasks == map[]
    requires forall s, b | 0 <= s < |st.tables| && 0 <= b < |st.tables[s]| :: st.tables[s][b].value == MOVED
    ensures Holds(st.dest, st.contents)
  {
    forall b: nat | b < |st.dest| && st.dest[b].hash != EMPTY_HASH
      ensures st.dest[b].hash in st.home && st.home[st.dest[b].hash] == Dst(b)
    {
      assert OwnedAt(st, Dst(b)) == Owned(st.dest[b].hash, st.dest[b].value);
    }
    forall h | h in st.contents
      ensures exists b :: 0 <= b < |st.dest| && st.dest[b].hash == h
    {
      assert OwnedAt(st, st.home[h]).Owned?;
    }
  }

  lemma AllocatedIsLive(cells: seq<Cell>, contents: map<int, int>)
    requires Holds(cells, contents) && EMPTY_HASH !in contents
    ensures |AllocatedIn(cells)| == |contents|
  {
    var hashes := set b | b in AllocatedIn(cells) :: cells[b].hash;
    HashesCard(cells, AllocatedIn(cells), hashes);
    forall h | h in contents
      ensures h in hashes
    {
      var b: nat :| b < |cells| && cells[b].hash == h;
      assert b in AllocatedIn(cells);
    }
    assert hashes == contents.Keys;
  }

  lemma {:induction false} HashesCard(cells: seq<Cell>, bs: set<nat>, hashes: set<int>)
    requires forall b | b in bs :: b < |cells|
    requires forall b, c | b in bs && c in bs && b != c :: cells[b].hash != cells[c].hash
    requires hashes == set b | b in bs :: cells[b].hash
    ensures |hashes| == |bs|
  {
    if bs != {} {
      assert (forall b: nat :: b !in bs) ==> bs == {};
      var b :| b in bs;
      HashesCard(cells, bs - {b}, hashes - {cells[b].hash});
    }
  }

  // ---- Nobody is stuck, and what a restart starts with --------------------------------------------

  /** A worker in a chunk can always go on: with the cell it is at, with the entry in its hand, for which it
      may take any free bucket or go back, or by ending the chunk exactly when it is through. */
  lemma WorkersGoOn(run: seq<State>, k: nat, w: nat)
    requires IsRun(run) && k < |run| && w in run[k].run.workers && run[k].run.workers[w].Working?
    ensures var st := run[k];
            && w in st.tasks
            && match st.tasks[w].hand
               case Holding(_, _) =>
                 Enabled(st, PutBack(w)) && forall b: nat | b < |st.dest| && st.dest[b].hash == EMPTY_HASH :: Enabled(st, PlaceAt(w, b))
               case Nothing =>
                 if st.tasks[w].pos == CHUNK * st.run.workers[w].c + CHUNK then Enabled(st, EndRange(w))
                 else Enabled(st, Skip(w)) || Enabled(st, Take(w))
  {
    RunKeeps(run, k);
    hide IsRun, Inv;
    WorkerGoesOn(run[k], w);
  }

  lemma WorkerGoesOn(st: State, w: nat)
    requires Inv(st) && w in st.run.workers && st.run.workers[w].Working?
    ensures w in st.tasks
    ensures match st.tasks[w].hand
            case Holding(_, _) =>
              Enabled(st, PutBack(w)) && forall b: nat | b < |st.dest| && st.dest[b].hash == EMPTY_HASH :: Enabled(st, PlaceAt(w, b))
            case Nothing =>
              if st.tasks[w].pos == CHUNK * st.run.workers[w].c + CHUNK then Enabled(st, EndRange(w))
              else Enabled(st, Skip(w)) || Enabled(st, Take(w))
  {
    assert TaskOk(st, w) && |st.run.index| == |st.run.chunks| by { assert W.Drawn(st.run); }
    hide Inv;
    InChunk(st, w);
    hide TaskOk, Enabled;
    if st.tasks[w].hand.Holding? {
      HandGoesOn(st, w);
    } else {
      CellGoesOn(st, w);
    }
  }

  lemma HandGoesOn(st: State, w: nat)
    requires |st.run.index| == |st.run.chunks| && CellOf(st, w) && st.tasks[w].hand.Holding?
    ensures Enabled(st, PutBack(w)) && forall b: nat | b < |st.dest| && st.dest[b].hash == EMPTY_HASH :: Enabled(st, PlaceAt(w, b))
  {
  }

  lemma CellGoesOn(st: State, w: nat)
    requires w in st.run.workers && st.run.workers[w].Working? && w in st.tasks && st.tasks[w].hand.Nothing?
    requires |st.run.index| == |st.run.chunks|
    requires st.tasks[w].pos == CHUNK * st.run.workers[w].c + CHUNK || CellOf(st, w)
    ensures if st.tasks[w].pos == CHUNK * st.run.workers[w].c + CHUNK then Enabled(st, EndRange(w))
            else Enabled(st, Skip(w)) || Enabled(st, Take(w))
  {
  }

  lemma InChunk(st: State, w: nat)
    requires w in st.run.workers && st.run.workers[w].Working? && TaskOk(st, w)
    ensures w in st.tasks && st.run.workers[w].s < |st.tables|
    ensures st.tasks[w].pos < CHUNK * st.run.workers[w].c + CHUNK ==> CellOf(st, w)
    ensures st.tasks[w].pos <= CHUNK * st.run.workers[w].c + CHUNK
    ensures st.tasks[w].hand.Holding? ==> st.tasks[w].pos < CHUNK * st.run.workers[w].c + CHUNK
  {
    hide Gone;
  }

  /** The restart has the old sources and the old destination to move, and a fresh one twice as large. */
  lemma RestartStarts(run: seq<State>, k: nat, w: nat)
    requires IsRun(run) && k < |run| && Enabled(run[k], Restart(w))
    ensures var st, st' := run[k], Next(run[k], Restart(w));
            && st'.tables == st.tables + [st.dest] && |st'.dest| == 2 * |st.dest|
            && (forall b | 0 <= b < |st'.dest| :: st'.dest[b] == FRESH_CELL)
            && st'.contents == st.contents && !st'.run.done && !st'.run.overflowed && st'.run.workers == map[]
            && |st'.run.index| == |st'.tables| && forall s | 0 <= s < |st'.run.index| :: st'.run.index[s] == 0
  {
    RunKeeps(run, k);
    assert WellFormed(run[k]);
  }
}
