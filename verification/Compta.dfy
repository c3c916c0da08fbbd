/** The accounting seqlock: the CPU that owns a task writes its totals and its
    block inside sections, any number of readers run beside it without a lock.

    While a section is open the variables it may write hold arbitrary values:
    this covers every order of the individual stores. */
module Compta {
  import opened Commun
  import opened ComptaSpec

  datatype Kind = End | Arm

  /** The writer: the CPU the task is on, interrupts masked. */
  datatype Wpc =
    | Idle
    | TOpen(kind: Kind)                                  // task sequence odd
    | TBoth(kind: Kind, f: Fields, b: Block)             // block sequence odd too
    | TTimed(kind: Kind, f: Fields, b: Block, now: nat)  // instant read
    | TShut                                              // block sequence even
    | COpen(toKernel: bool, b: Block)                    // boundary: block odd
    | CTimed(toKernel: bool, b: Block, now: nat)

  datatype Cell = Cell(sq: nat, b: Block)

  datatype Vals = Vals(curseur: nat, coeur: int, user: nat, kern: nat, b1: nat, b: Block, now: nat, coherent: bool)

  /** An instant and the time the task had truly consumed by then. */
  datatype Snap = Snap(clock: nat, user: nat, kern: nat)

  /** A call of lecture_compta; `k` is the next access of an attempt. */
  datatype Reader =
    | RSeq(start: Snap)
    | RBody(start: Snap, avant: nat, k: nat, v: Vals, at: Snap)
    | Done(start: Snap, at: Snap, user: nat, kern: nat)

  /** `armed`, `mode`, `user` and `kern` are the truth: whether the task is
      consuming, on which side, and how much it has. */
  datatype State = State(
    clock: nat, sq: nat, on: int, f: Fields, cells: seq<Cell>, w: Wpc,
    armed: bool, mode: bool, user: nat, kern: nat, readers: map<nat, Reader>)

  datatype Label =
    | Tick(d: nat)
    | Claim(c: int)
    | Drop
    | OpenT(kind: Kind)
    | OpenC(toKernel: bool)
    | NextW
    | Scribble(f: Fields, b: Block)
    | Foreign(c: int, cell: Cell)
    | NewReader(r: nat)
    | Read(r: nat)

  predicate IsCpu(s: State, c: int) { 0 <= c < |s.cells| }

  function Cur(s: State): Snap { Snap(s.clock, s.user, s.kern) }

  function Even(n: nat): bool { n % 2 == 0 }

  function Final(kind: Kind, f: Fields, b: Block, now: nat): (Fields, Block)
  {
    if kind.End? then Ended(f, b, now) else Armed(f, b, now)
  }

  predicate InTask(w: Wpc) { w.TOpen? || w.TBoth? || w.TTimed? || w.TShut? }

  predicate InBlock(w: Wpc) { w.TBoth? || w.TTimed? || w.COpen? || w.CTimed? }

  predicate Enabled(s: State, l: Label)
  {
    match l
    case Tick(d) => s.clock + d <= U64_MAX
    case Claim(c) => s.w.Idle? && s.on == -1 && IsCpu(s, c)
    case Drop => s.w.Idle? && s.f.last == 0
    case OpenT(_) => s.w.Idle? && IsCpu(s, s.on) && Even(s.cells[s.on].sq)
    case OpenC(_) => s.w.Idle? && IsCpu(s, s.on) && Even(s.cells[s.on].sq) && s.f.last != 0
    case NextW => !s.w.Idle? && IsCpu(s, s.on)
    case Scribble(f, _) => InBlock(s.w) && IsCpu(s, s.on) && (s.w.COpen? || s.w.CTimed? ==> f == s.f)
    case Foreign(c, cell) =>
      IsCpu(s, c) && cell.sq >= s.cells[c].sq && (s.on == c ==> s.w.Idle? && s.f.last == 0)
    case NewReader(r) => r !in s.readers
    case Read(r) => r in s.readers && !s.readers[r].Done?
  }

  function WithBlock(s: State, c: int, cell: Cell): State
    requires IsCpu(s, c)
  {
    s.(cells := s.cells[c := cell])
  }

  function WriterStep(s: State): State
    requires IsCpu(s, s.on)
  {
    var cell := s.cells[s.on];
    match s.w
    case Idle => s
    case TOpen(kind) => WithBlock(s, s.on, Cell(cell.sq + 1, cell.b)).(w := TBoth(kind, s.f, cell.b))
    case TBoth(kind, f, b) =>
      var t := s.(w := TTimed(kind, f, b, s.clock));
      if kind.End? && f.last != 0 then t.(armed := false)
      else if kind.Arm? && f.last == 0 then t.(armed := true, mode := f.inKernel)
      else t
    case TTimed(kind, f, b, now) =>
      var (f', b') := Final(kind, f, b, now);
      WithBlock(s, s.on, Cell(cell.sq + 1, b')).(f := f', w := TShut)
    case TShut => s.(sq := s.sq + 1, w := Idle)
    case COpen(toK, b) => s.(w := CTimed(toK, b, s.clock), mode := toK)
    case CTimed(toK, b, now) => WithBlock(s, s.on, Cell(cell.sq + 1, Crossed(b, now, toK))).(w := Idle)
  }

  /** An attempt reads the block only of a task it saw accounted on a CPU. */
  predicate Uses(s: State, v: Vals) { v.curseur != 0 && IsCpu(s, v.coeur) }

  const NOTHING := Vals(0, 0, 0, 0, 0, Block(0, 0, 0, false), 0, true)

  function ReaderStep(s: State, x: Reader): Reader
    requires !x.Done?
  {
    match x
    case RSeq(start) => if Even(s.sq) then RBody(start, s.sq, 1, NOTHING, start) else x
    case RBody(start, avant, k, v, at) =>
      if k == 1 then RBody(start, avant, 2, v.(curseur := s.f.last), at)
      else if k == 2 then RBody(start, avant, 3, v.(coeur := s.on), at)
      else if k == 3 then RBody(start, avant, 4, v.(user := s.f.user), at)
      else if k == 4 then RBody(start, avant, if Uses(s, v) then 5 else 12, v.(kern := s.f.kern), at)
      else if k < 12 && !Uses(s, v) then RSeq(start)
      else if k == 5 then RBody(start, avant, 6, v.(b1 := s.cells[v.coeur].sq), at)
      else if k == 6 then RBody(start, avant, 7, v.(b := v.b.(user := s.cells[v.coeur].b.user)), at)
      else if k == 7 then RBody(start, avant, 8, v.(b := v.b.(kern := s.cells[v.coeur].b.kern)), at)
      else if k == 8 then RBody(start, avant, 9, v.(b := v.b.(debut := s.cells[v.coeur].b.debut)), at)
      else if k == 9 then RBody(start, avant, 10, v.(b := v.b.(enNoyau := s.cells[v.coeur].b.enNoyau)), at)
      else if k == 10 then RBody(start, avant, 11, v.(now := s.clock), Cur(s))
      else if k == 11 then RBody(start, avant, 12, v.(coherent := Even(v.b1) && s.cells[v.coeur].sq == v.b1), at)
      else if v.coherent && s.sq == avant then
        (if Uses(s, v) then Done(start, at, Sat(v.user + Live(v.b, v.now).0), Sat(v.kern + Live(v.b, v.now).1))
         else Done(start, Cur(s), v.user, v.kern))
      else RSeq(start)
  }

  function Apply(s: State, l: Label): State
    requires Enabled(s, l)
  {
    match l
    case Tick(d) =>
      s.(clock := s.clock + d,
         user := if s.armed && !s.mode then s.user + d else s.user,
         kern := if s.armed && s.mode then s.kern + d else s.kern)
    case Claim(c) => s.(on := c)
    case Drop => s.(on := -1)
    case OpenT(kind) => s.(sq := s.sq + 1, w := TOpen(kind))
    case OpenC(toK) =>
      var cell := s.cells[s.on];
      WithBlock(s, s.on, Cell(cell.sq + 1, cell.b)).(w := COpen(toK, cell.b))
    case NextW => WriterStep(s)
    case Scribble(f, b) => WithBlock(s, s.on, Cell(s.cells[s.on].sq, b)).(f := f)
    case Foreign(c, cell) => WithBlock(s, c, cell)
    case NewReader(r) => s.(readers := s.readers[r := RSeq(Cur(s))])
    case Read(r) => s.(readers := s.readers[r := ReaderStep(s, s.readers[r])])
  }

  /** A task never run, no section open, no reader; the clock has started. */
  predicate Init(s: State)
  {
    && s.clock > 0 && s.clock <= U64_MAX && Even(s.sq) && s.on == -1 && s.f.last == 0 && s.w.Idle?
    && !s.armed && s.user == s.f.user && s.kern == s.f.kern && s.user + s.kern <= s.clock
    && s.readers == map[]
  }

  // ---- The writer's invariant ----

  /** Totals and block, taken together, tell the truth at this instant. */
  predicate Match(s: State, f: Fields, b: Block)
  {
    if s.armed then
      && f.last != 0 && 0 < b.debut <= s.clock && s.mode == b.enNoyau
      && s.user == f.user + b.user + (if s.mode then 0 else s.clock - b.debut)
      && s.kern == f.kern + b.kern + (if s.mode then s.clock - b.debut else 0)
    else f.last == 0 && s.user == f.user && s.kern == f.kern
  }

  predicate WriterOk(s: State)
  {
    && 0 < s.clock <= U64_MAX
    && s.user + s.kern <= s.clock
    && Even(s.sq) == !InTask(s.w)
    && (!s.w.Idle? || s.armed ==> IsCpu(s, s.on))
    && (IsCpu(s, s.on) && (!s.w.Idle? || s.armed) ==> Even(s.cells[s.on].sq) == !InBlock(s.w))
    && match s.w
       case TBoth(_, f, b) => Match(s, f, b)
       case TTimed(k, f, b, now) => 0 < now <= s.clock && Match(s, Final(k, f, b, now).0, Final(k, f, b, now).1)
       case COpen(_, b) => s.armed && Match(s, s.f, b)
       case CTimed(toK, b, now) => s.armed && 0 < now <= s.clock && Match(s, s.f, Crossed(b, now, toK))
       case _ => if s.armed then Match(s, s.f, s.cells[s.on].b) else Match(s, s.f, Block(0, 0, 0, false))
  }

  lemma InitOk(s: State)
    requires Init(s)
    ensures WriterOk(s)
  {
  }

  /** Time passes: the open slice grows exactly as the truth does. */
  lemma TickOk(s: State, d: nat)
    requires WriterOk(s) && Enabled(s, Tick(d))
    ensures WriterOk(Apply(s, Tick(d)))
  {
  }

  lemma FoldTrue(s: State, f: Fields, b: Block)
    requires s.armed && Match(s, f, b) && s.user + s.kern <= s.clock <= U64_MAX
    ensures Ended(f, b, s.clock).0 == Fields(0, s.user, s.kern, b.enNoyau)
  {
  }

  lemma CrossTrue(s: State, f: Fields, b: Block, toK: bool)
    requires s.armed && Match(s, f, b) && s.user + s.kern <= s.clock <= U64_MAX && s.clock > 0
    ensures Match(s.(mode := toK), f, Crossed(b, s.clock, toK))
  {
    assert b.user + (s.clock - b.debut) <= U64_MAX || s.mode;
    assert b.kern + (s.clock - b.debut) <= U64_MAX || !s.mode;
  }

  lemma WriterStepOk(s: State)
    requires WriterOk(s) && Enabled(s, NextW)
    ensures WriterOk(WriterStep(s))
  {
    if s.w.TBoth? || s.w.TTimed? { BothOk(s); }
    else if s.w.COpen? { CrossTrue(s, s.f, s.w.b, s.w.toKernel); }
  }

  lemma BothOk(s: State)
    requires WriterOk(s) && Enabled(s, NextW) && (s.w.TBoth? || s.w.TTimed?)
    ensures WriterOk(WriterStep(s))
  {
    if s.w.TBoth? && s.w.kind.End? && s.armed { FoldTrue(s, s.w.f, s.w.b); }
  }

  lemma OpenOk(s: State, l: Label)
    requires WriterOk(s) && Enabled(s, l) && (l.OpenT? || l.OpenC?)
    ensures WriterOk(Apply(s, l))
  {
  }

  lemma MemoryOk(s: State, l: Label)
    requires WriterOk(s) && Enabled(s, l) && (l.Scribble? || l.Foreign?)
    ensures WriterOk(Apply(s, l))
  {
  }

  lemma OtherOk(s: State, l: Label)
    requires WriterOk(s) && Enabled(s, l) && (l.Claim? || l.Drop? || l.NewReader? || l.Read?)
    ensures WriterOk(Apply(s, l))
  {
  }

  // ---- The readers' invariant ----

  /** Time and the truth move together: neither side decreases and both grow by
      no more than the clock. */
  predicate Leq(a: Snap, b: Snap)
  {
    a.clock <= b.clock && a.user <= b.user && a.kern <= b.kern
    && (b.user - a.user) + (b.kern - a.kern) <= b.clock - a.clock
  }

  /** What an attempt has read so far still describes the task, provided no
      section of the task has opened since the attempt began. */
  predicate TaskPart(s: State, k: nat, v: Vals)
  {
    && (k >= 2 ==> v.curseur == s.f.last)
    && (k >= 3 && v.curseur != 0 ==> v.coeur == s.on)
    && (k >= 4 ==> v.user == s.f.user)
    && (k >= 5 ==> v.kern == s.f.kern)
  }

  /** ... and the block, provided no section of that CPU has opened either. */
  predicate BlockPart(s: State, k: nat, v: Vals)
    requires IsCpu(s, v.coeur)
  {
    var b := s.cells[v.coeur].b;
    && (k >= 7 ==> v.b.user == b.user)
    && (k >= 8 ==> v.b.kern == b.kern)
    && (k >= 9 ==> v.b.debut == b.debut)
    && (k >= 10 ==> v.b.enNoyau == b.enNoyau)
  }

  /** The sum a reader computes is the truth at the instant it sampled. */
  predicate TellsTruth(v: Vals, at: Snap)
  {
    v.user + Live(v.b, v.now).0 == at.user && v.kern + Live(v.b, v.now).1 == at.kern && at.user + at.kern <= U64_MAX
  }

  predicate ReaderOk(s: State, x: Reader)
  {
    match x
    case RSeq(start) => Leq(start, Cur(s))
    case Done(start, at, user, kern) => Leq(start, at) && Leq(at, Cur(s)) && user == at.user && kern == at.kern
    case RBody(start, avant, k, v, at) =>
      && 1 <= k <= 12 && Leq(start, at) && Leq(at, Cur(s))
      && avant <= s.sq && Even(avant)
      && (k >= 6 && k < 12 && Uses(s, v) ==> v.b1 <= s.cells[v.coeur].sq)
      && (s.sq == avant ==>
            && TaskPart(s, k, v)
            && (5 <= k < 12 ==> Uses(s, v))
            && (6 <= k < 12 && Uses(s, v) && Even(v.b1) && s.cells[v.coeur].sq == v.b1 ==>
                  BlockPart(s, k, v) && (k == 11 ==> TellsTruth(v, at)))
            && (k == 12 && Uses(s, v) && v.coherent ==> TellsTruth(v, at)))
  }

  ghost predicate Inv(s: State)
  {
    WriterOk(s) && forall r :: r in s.readers ==> ReaderOk(s, s.readers[r])
  }

  /** What a step that is not a reader's may do under a reader's feet. */
  ghost predicate Frame(s: State, s': State)
  {
    && |s'.cells| == |s.cells| && s.sq <= s'.sq && Leq(Cur(s), Cur(s'))
    && (s'.sq == s.sq && Even(s.sq) ==> s'.f == s.f && (s.f.last != 0 ==> s'.on == s.on))
    && (forall c :: 0 <= c < |s.cells| ==> s.cells[c].sq <= s'.cells[c].sq)
    && (IsCpu(s, s.on) && s'.sq == s.sq && Even(s.sq) && s.f.last != 0 && s'.cells[s.on].sq == s.cells[s.on].sq && Even(s.cells[s.on].sq) ==>
          s'.cells[s.on].b == s.cells[s.on].b)
  }

  lemma ReaderFrame(s: State, s': State, x: Reader)
    requires ReaderOk(s, x) && Frame(s, s')
    ensures ReaderOk(s', x)
  {
  }

  lemma StepFrame(s: State, l: Label)
    requires WriterOk(s) && Enabled(s, l) && !l.NewReader? && !l.Read?
    ensures Frame(s, Apply(s, l))
  {
  }

  lemma ReadTaskOk(s: State, x: Reader)
    requires WriterOk(s) && ReaderOk(s, x) && !x.Done? && (x.RBody? ==> x.k <= 5)
    ensures ReaderOk(s, ReaderStep(s, x))
  {
  }

  lemma ReadBlockOk(s: State, x: Reader)
    requires WriterOk(s) && ReaderOk(s, x) && x.RBody? && 5 < x.k <= 10
    ensures ReaderOk(s, ReaderStep(s, x))
  {
  }

  lemma ReadEndOk(s: State, x: Reader)
    requires WriterOk(s) && ReaderOk(s, x) && x.RBody? && 10 < x.k
    ensures ReaderOk(s, ReaderStep(s, x))
  {
  }

  lemma ReadOk(s: State, x: Reader)
    requires WriterOk(s) && ReaderOk(s, x) && !x.Done?
    ensures ReaderOk(s, ReaderStep(s, x))
  {
    if x.RSeq? || x.k <= 5 { ReadTaskOk(s, x); } else if x.k <= 10 { ReadBlockOk(s, x); } else { ReadEndOk(s, x); }
  }

  lemma LeqStep(s: State, l: Label)
    requires Enabled(s, l)
    ensures Leq(Cur(s), Cur(Apply(s, l)))
  {
  }

  lemma WriterInv(s: State, l: Label)
    requires WriterOk(s) && Enabled(s, l)
    ensures WriterOk(Apply(s, l)) && Leq(Cur(s), Cur(Apply(s, l)))
  {
    if l.Tick? { TickOk(s, l.d); }
    else if l.NextW? { WriterStepOk(s); }
    else if l.OpenT? || l.OpenC? { OpenOk(s, l); }
    else if l.Scribble? || l.Foreign? { MemoryOk(s, l); }
    else { OtherOk(s, l); }
    LeqStep(s, l);
  }

  lemma ReadInv(s: State, r: nat, q: nat)
    requires Inv(s) && Enabled(s, Read(r)) && q in s.readers
    ensures ReaderOk(Apply(s, Read(r)), Apply(s, Read(r)).readers[q])
  {
    var s' := Apply(s, Read(r));
    assert ReaderOk(s, s.readers[q]);
    if q == r {
      ReadOk(s, s.readers[r]);
      Same(s, s', ReaderStep(s, s.readers[r]));
    } else {
      Same(s, s', s.readers[q]);
    }
  }

  lemma OthersInv(s: State, l: Label, q: nat)
    requires Inv(s) && Enabled(s, l) && !l.Read? && q in Apply(s, l).readers
    ensures ReaderOk(Apply(s, l), Apply(s, l).readers[q])
  {
    var s' := Apply(s, l);
    if l.NewReader? {
      if q != l.r { Same(s, s', s.readers[q]); }
    } else {
      StepFrame(s, l);
      ReaderFrame(s, s', s.readers[q]);
    }
  }

  lemma StepInv(s: State, l: Label)
    requires Inv(s) && Enabled(s, l)
    ensures Inv(Apply(s, l))
  {
    WriterInv(s, l);
    forall q | q in Apply(s, l).readers ensures ReaderOk(Apply(s, l), Apply(s, l).readers[q]) {
      if l.Read? { ReadInv(s, l.r, q); } else { OthersInv(s, l, q); }
    }
  }

  /** A reading keeps the snapshot it started from. */
  lemma StartKept(s: State, l: Label, r: nat)
    requires Enabled(s, l) && r in Apply(s, l).readers
    ensures if r in s.readers then Apply(s, l).readers[r].start == s.readers[r].start else Apply(s, l).readers[r].start == Cur(s)
  {
  }

  lemma Same(s: State, s': State, x: Reader)
    requires ReaderOk(s, x) && s' == s.(readers := s'.readers)
    ensures ReaderOk(s', x)
  {
  }

  ghost predicate Run(states: seq<State>, labels: seq<Label>)
  {
    && |states| == |labels| + 1
    && Init(states[0])
    && forall i :: 0 <= i < |labels| ==> Enabled(states[i], labels[i]) && states[i + 1] == Apply(states[i], labels[i])
  }

  lemma {:induction false} RunInv(states: seq<State>, labels: seq<Label>, i: nat)
    requires Run(states, labels) && i <= |labels|
    ensures Inv(states[i])
  {
    if i == 0 {
      InitOk(states[0]);
    } else {
      RunInv(states, labels, i - 1);
      assert states[i - 1 + 1] == Apply(states[i - 1], labels[i - 1]);
      StepInv(states[i - 1], labels[i - 1]);
    }
  }

  lemma LaterStep(from: Snap, s: State, l: Label, r: nat)
    requires WriterOk(s) && Enabled(s, l) && Leq(from, Cur(s)) && (r in s.readers ==> Leq(from, s.readers[r].start))
    ensures Leq(from, Cur(Apply(s, l))) && (r in Apply(s, l).readers ==> Leq(from, Apply(s, l).readers[r].start))
  {
    WriterInv(s, l);
    if r in Apply(s, l).readers { StartKept(s, l, r); }
  }

  lemma RunWriter(states: seq<State>, labels: seq<Label>, i: nat)
    requires Run(states, labels) && i < |labels|
    ensures WriterOk(states[i]) && Enabled(states[i], labels[i]) && states[i + 1] == Apply(states[i], labels[i])
  {
    RunInv(states, labels, i);
  }

  predicate After(from: Snap, s: State, r: nat) { Leq(from, Cur(s)) && (r in s.readers ==> Leq(from, s.readers[r].start)) }

  lemma AfterAt(states: seq<State>, labels: seq<Label>, from: Snap, m: nat, r: nat)
    requires Run(states, labels) && m < |labels| && After(from, states[m], r)
    ensures After(from, states[m + 1], r)
  {
    RunWriter(states, labels, m);
    LaterStep(from, states[m], labels[m], r);
  }

  lemma {:induction false} AfterThrough(states: seq<State>, from: Snap, i: nat, j: nat, r: nat)
    requires i <= j < |states| && After(from, states[i], r)
    requires forall m :: i <= m < j && After(from, states[m], r) ==> After(from, states[m + 1], r)
    ensures After(from, states[j], r)
  {
    if i < j { AfterThrough(states, from, i, j - 1, r); assert After(from, states[j - 1 + 1], r); }
  }

  /** A reading begun after state `i` starts from a later truth. */
  lemma StartsLater(states: seq<State>, labels: seq<Label>, i: nat, j: nat, r: nat)
    requires Run(states, labels) && i <= j <= |labels| && r !in states[i].readers
    ensures After(Cur(states[i]), states[j], r)
  {
    forall m | i <= m < j && After(Cur(states[i]), states[m], r) ensures After(Cur(states[i]), states[m + 1], r) {
      AfterAt(states, labels, Cur(states[i]), m, r);
    }
    AfterThrough(states, Cur(states[i]), i, j, r);
  }

  /** Every accepted reading is the truth at one instant of its own window. */
  lemma ReadingIsTruth(states: seq<State>, labels: seq<Label>, i: nat, r: nat)
    requires Run(states, labels) && i <= |labels| && r in states[i].readers && states[i].readers[r].Done?
    ensures var x := states[i].readers[r];
      x.user == x.at.user && x.kern == x.at.kern && Leq(x.start, x.at) && Leq(x.at, Cur(states[i]))
  {
    RunInv(states, labels, i);
    assert ReaderOk(states[i], states[i].readers[r]);
  }

  /** Two readings, the second begun after the first was accepted: neither the
      user nor the kernel time goes back, and together they grow by no more than
      the time between the two instants, hence than any window around them. */
  lemma SuccessiveReadings(states: seq<State>, labels: seq<Label>, i: nat, j: nat, r1: nat, r2: nat)
    requires Run(states, labels) && i <= j <= |labels|
    requires r1 in states[i].readers && states[i].readers[r1].Done?
    requires r2 !in states[i].readers && r2 in states[j].readers && states[j].readers[r2].Done?
    ensures var x, y := states[i].readers[r1], states[j].readers[r2];
      && x.user <= y.user && x.kern <= y.kern
      && (y.user - x.user) + (y.kern - x.kern) <= y.at.clock - x.at.clock <= states[j].clock - x.start.clock
  {
    ReadingIsTruth(states, labels, i, r1);
    ReadingIsTruth(states, labels, j, r2);
    StartsLater(states, labels, i, j, r2);
  }
}
