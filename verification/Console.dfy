/** The asynchronous console: writers put whole lines in one main ring or, when
    they may not wait, in the deferred ring of their CPU; whoever holds the token
    merges the rings on the port, a piece of a line at a time.

    A deferred record carries the write position of the main ring when it was
    made and a global sequence number.  Positions are counted in records: byte
    positions of record boundaries grow strictly with them. */
module Console {
  const STAMP := 8

  type Octet = x: int | 0 <= x < 256

  /** The `k`-th line of writer `w`. */
  datatype Line = Line(w: nat, k: nat, text: seq<Octet>)

  /** `late` is history: put on a ring the current scan had already passed. */
  datatype Rec = Rec(line: Line, rep: nat, num: nat, late: bool)

  /** A writer between two lines, or inside `differe`: position read, then
      number taken.  `k` is the line it is at. */
  datatype Writer =
    | Idle(k: nat)
    | GotRep(k: nat, core: nat, text: seq<Octet>, rep: nat)
    | GotNum(k: nat, core: nat, text: seq<Octet>, rep: nat, num: nat)

  datatype Best = NoBest | Best(core: nat, rep: nat, num: nat)

  /** The token: free, taken, scanning the deferred heads, emitting one of them,
      or advancing the head of the main ring. */
  datatype Drain =
    | Free
    | Taken
    | Scan(lus: nat, c: nat, best: Best)
    | EmitDeferred(core: nat)
    | Advance

  /** `main` holds every record ever put in the main ring, `lus` how many have
      been retired, `entame` how far into its head the output is (0: not begun).
      `out` lists the lines in the order they were begun on the port; `seek`
      counts the agents that found a ring not empty and now try the token. */
  datatype State = State(
    main: seq<Line>, lus: nat, entame: nat, cores: seq<seq<Rec>>, numero: nat,
    writers: map<nat, Writer>, d: Drain, seek: nat, out: seq<Line>, bytes: seq<Octet>, published: seq<Line>)

  datatype Label =
    | Ring(w: nat, text: seq<Octet>)
    | Begin(w: nat, core: nat, text: seq<Octet>)
    | Number(w: nat)
    | Publish(w: nat)
    | Retry(w: nat)
    | Lose(w: nat)
    | Seek
    | Take
    | GiveUp
    | Next(budget: nat)

  function Busy(x: Writer): (r: int) { if x.Idle? then -1 else x.core }

  /** Some ring is not empty. */
  predicate Waiting(s: State) { s.lus < |s.main| || exists c :: 0 <= c < |s.cores| && s.cores[c] != [] }

  predicate Enabled(s: State, l: Label)
  {
    match l
    case Ring(w, text) => w in s.writers && s.writers[w].Idle? && text != []
    case Begin(w, core, text) =>
      w in s.writers && s.writers[w].Idle? && text != [] && core < |s.cores|
      && forall v :: v in s.writers ==> Busy(s.writers[v]) != core
    case Number(w) => w in s.writers && s.writers[w].GotRep?
    case Publish(w) => w in s.writers && s.writers[w].GotNum? && s.writers[w].core < |s.cores|
    case Retry(w) => w in s.writers && s.writers[w].GotNum?
    case Lose(w) => w in s.writers && s.writers[w].GotNum?
    case Seek => Waiting(s)
    case Take => s.d.Free? && s.seek > 0
    case GiveUp => s.seek > 0
    case Next(budget) => !s.d.Free? && budget > 0
  }

  function WithWriter(s: State, w: nat, x: Writer): State { s.(writers := s.writers[w := x]) }

  /** Records made before a scan begins are not late for it. */
  function OnTime(ring: seq<Rec>): (r: seq<Rec>)
    ensures |r| == |ring|
  {
    seq(|ring|, i requires 0 <= i < |ring| => ring[i].(late := false))
  }

  function AllOnTime(cores: seq<seq<Rec>>): (r: seq<seq<Rec>>)
    ensures |r| == |cores|
  {
    seq(|cores|, c requires 0 <= c < |cores| => OnTime(cores[c]))
  }

  predicate Behind(d: Drain, core: nat) { (d.Scan? && core < d.c) || d.EmitDeferred? || d.Advance? }

  predicate Less(rep: nat, num: nat, b: Best) { b.NoBest? || rep < b.rep || (rep == b.rep && num < b.num) }

  function Min(a: nat, b: nat): nat { if a <= b then a else b }

  /** One piece of the head record: its stamp is never emitted. */
  function AdvanceHead(s: State, budget: nat): State
  {
    if s.lus >= |s.main| then s.(d := Free)
    else
      var line := s.main[s.lus];
      var n := STAMP + |line.text|;
      var from := Min(if s.entame > STAMP then s.entame else STAMP, n);
      var to := Min(from + budget, n);
      var t := s.(d := Free,
                  out := if s.entame == 0 then s.out + [line] else s.out,
                  bytes := s.bytes + line.text[from - STAMP..to - STAMP]);
      if to < n then t.(entame := to) else t.(entame := 0, lus := s.lus + 1)
  }

  function DrainStep(s: State, budget: nat): State
  {
    match s.d
    case Free => s
    case Taken =>
      if s.entame != 0 then s.(d := Advance)
      else s.(d := Scan(s.lus, 0, NoBest), cores := AllOnTime(s.cores))
    case Scan(lus, c, best) =>
      if c >= |s.cores| then s.(d := if best.NoBest? then Advance else EmitDeferred(best.core))
      else if s.cores[c] != [] && s.cores[c][0].rep <= lus && Less(s.cores[c][0].rep, s.cores[c][0].num, best)
      then s.(d := Scan(lus, c + 1, Best(c, s.cores[c][0].rep, s.cores[c][0].num)))
      else s.(d := Scan(lus, c + 1, best))
    case EmitDeferred(core) =>
      if core < |s.cores| && s.cores[core] != [] then
        var line := s.cores[core][0].line;
        s.(d := Free, cores := s.cores[core := s.cores[core][1..]], out := s.out + [line], bytes := s.bytes + line.text)
      else s.(d := Free)
    case Advance => AdvanceHead(s, budget)
  }

  function Apply(s: State, l: Label): State
    requires Enabled(s, l)
  {
    match l
    case Ring(w, text) =>
      var line := Line(w, s.writers[w].k, text);
      WithWriter(s, w, Idle(line.k + 1)).(main := s.main + [line], published := s.published + [line])
    case Begin(w, core, text) => WithWriter(s, w, GotRep(s.writers[w].k, core, text, |s.main|))
    case Number(w) =>
      var x := s.writers[w];
      WithWriter(s, w, GotNum(x.k, x.core, x.text, x.rep, s.numero)).(numero := s.numero + 1)
    case Publish(w) =>
      var x := s.writers[w];
      var line := Line(w, x.k, x.text);
      var ring := s.cores[x.core] + [Rec(line, x.rep, x.num, Behind(s.d, x.core))];
      WithWriter(s, w, Idle(x.k + 1)).(cores := s.cores[x.core := ring], published := s.published + [line])
    case Retry(w) => WithWriter(s, w, Idle(s.writers[w].k))
    case Lose(w) => WithWriter(s, w, Idle(s.writers[w].k + 1))
    case Seek => s.(seek := s.seek + 1)
    case Take => s.(d := Taken, seek := s.seek - 1)
    case GiveUp => s.(seek := s.seek - 1)
    case Next(budget) => DrainStep(s, budget)
  }

  ghost predicate Init(s: State)
  {
    && s.main == [] && s.lus == 0 && s.entame == 0 && s.d.Free? && s.seek == 0 && s.out == [] && s.bytes == [] && s.published == []
    && (forall c :: 0 <= c < |s.cores| ==> s.cores[c] == [])
    && (forall w :: w in s.writers ==> s.writers[w] == Idle(0))
  }
}
