/** Life and death of one task, access by access: the task itself, any number of
    killers running `condamne`, any wakers, and the scheduler that moves it on
    and off its CPU. */
module CycleVie {
  import opened Commun
  import opened Runs

  datatype Etat = Pret | Bloque | Zombie

  datatype Transition = Endort | Reveille | Meurt | TueParquee

  /** The only transitions that exist. */
  function Applique(depuis: Etat, t: Transition): Option<Etat>
  {
    match (depuis, t)
    case (Pret, Endort) => Some(Bloque)
    case (Bloque, Reveille) => Some(Pret)
    case (Pret, Meurt) => Some(Zombie)
    case (Bloque, Meurt) => Some(Zombie)
    case (Bloque, TueParquee) => Some(Zombie)
    case _ => None
  }

  /** A compare-and-swap (a swap for Meurt): the new state, and whether it took. */
  function Tente(etat: Etat, t: Transition): (Etat, bool)
  {
    match Applique(etat, t)
    case Some(e) => (e, true)
    case None => (etat, false)
  }

  datatype Action = Rien | Frontiere | TueSurPlace | Reveiller | AttendSonEvenement

  function ActionTueur(etat: Etat, surCoeur: bool, interruptible: bool): Action
  {
    match etat
    case Zombie => Rien
    case Pret => Frontiere
    case Bloque => if surCoeur then Reveiller else if interruptible then TueSurPlace else AttendSonEvenement
  }

  predicate MeurtAuParking(condamnee: bool, interruptible: bool) { condamnee && interruptible }

  /** Where the task's own code stands; `i` is the interruptibility of the wait. */
  datatype Pc =
    | User
    | Kernel
    | FrontRead                 // about to leave the kernel: read the condemnation
    | EnterUser                 // read it false
    | IrqRead                   // interrupted in user code: read the condemnation
    | IrqGo                     // read it false; may be switched out, then resumes
    | PStore(i: bool)           // publie_parking: interruptibility
    | PCas(i: bool)             // ... Ready -> Blocked
    | PReread(i: bool)          // ... reread the condemnation
    | PRefuse                   // ... refused: clear the interruptibility
    | Loop(i: bool)             // finish_park: is the state still Blocked?
    | Sched(i: bool)            // ... inside schedule()
    | Fin                       // ... clear the interruptibility
    | CancelCas(i: bool)        // annule_park: Blocked -> Ready
    | TermClear(i: bool)        // termine_attente: clear the interruptibility
    | TermCas(i: bool)          // ... Blocked -> Ready
    | Die                       // meurt_soi_meme
    | Dead

  /** On its CPU; marked leaving; owner cleared; off; claimed, not yet running. */
  datatype Stage = On | Out1 | Out2 | Off | Claimed

  /** `o` is history: the wait during which the killer read on_cpu; `w` the one
      during which it read the interruptibility. */
  datatype Kpc =
    | KPublish                              // condamnee := true
    | KOn                                   // read on_cpu
    | KSw(o: nat)                           // on_cpu was negative: read switching_out
    | KState(core: bool, o: nat)
    | KIntr(core: bool, o: nat, e: Etat)    // state read: read the interruptibility
    | KTue(o: nat, w: nat)
    | KReveille(core: bool)                 // `core` is history: as read

  /** `wait` numbers the waits, `cwait` is the one of the condemnation, `deaths`
      counts MORTS, `entries` the entries into user code since the
      condemnation: history only. */
  datatype State = State(
    etat: Etat, cond: bool, intr: bool, stage: Stage, pc: Pc, killers: map<nat, Kpc>,
    wait: nat, cwait: nat, deaths: nat, entries: nat)

  datatype Label =
    | Next                // the task's next access
    | Syscall
    | Irq
    | Return
    | Wait(i: bool)
    | Cancel
    | Term
    | SwitchOut
    | Stages              // the incoming continuation publishes the task
    | Claim
    | Elect
    | Unclaim
    | Wake
    | NewKiller(k: nat)
    | KNext(k: nat)

  function OnCpu(s: State): bool { s.stage.On? || s.stage.Out1? || s.stage.Claimed? }

  function SwitchingOut(s: State): bool { s.stage.Out1? || s.stage.Out2? }

  predicate Enabled(s: State, l: Label)
  {
    match l
    case Next =>
      s.stage.On? && !s.pc.User? && !s.pc.Kernel? && !s.pc.Dead?
    case Syscall => s.stage.On? && s.pc.User?
    case Irq => s.stage.On? && s.pc.User?
    case Return => s.stage.On? && s.pc.Kernel?
    case Wait(_) => s.stage.On? && s.pc.Kernel?
    case Cancel => s.stage.On? && s.pc.Loop?
    case Term => s.stage.On? && s.pc.Loop?
    case SwitchOut => s.stage.On? && (s.pc.Sched? || s.pc.IrqGo? || s.pc.Kernel? || s.pc.Dead?)
    case Stages => s.stage.Out1? || s.stage.Out2?
    case Claim => s.stage.Off?
    case Elect => s.stage.Claimed? && s.etat.Pret?
    case Unclaim => s.stage.Claimed? && !s.etat.Pret?
    case Wake => s.etat.Bloque?
    case NewKiller(k) => k !in s.killers
    case KNext(k) => k in s.killers
  }

  function Entered(s: State): State { s.(pc := User, entries := if s.cond then s.entries + 1 else s.entries) }

  function TaskStep(s: State): State
  {
    match s.pc
    case FrontRead => s.(pc := if s.cond then Die else EnterUser)
    case EnterUser => Entered(s)
    case IrqRead => s.(pc := if s.cond then Die else IrqGo)
    case IrqGo => Entered(s)
    case PStore(i) => s.(intr := i, pc := PCas(i))
    case PCas(i) =>
      var (e, ok) := Tente(s.etat, Endort);
      s.(etat := e, pc := if ok then PReread(i) else PRefuse, wait := if ok then s.wait + 1 else s.wait)
    case PReread(i) => s.(pc := if MeurtAuParking(s.cond, i) then Die else Loop(i))
    case PRefuse => s.(intr := false, pc := Kernel)
    case Loop(i) => s.(pc := if s.etat.Bloque? then Sched(i) else Fin)
    case Sched(i) => s.(pc := Loop(i))
    case Fin => s.(intr := false, pc := Kernel)
    case CancelCas(_) => s.(etat := Tente(s.etat, Reveille).0, pc := Fin)
    case TermClear(i) => s.(intr := false, pc := TermCas(i))
    case TermCas(_) => s.(etat := Tente(s.etat, Reveille).0, pc := Kernel)
    case Die =>
      var (e, ok) := Tente(s.etat, Meurt);
      s.(etat := e, pc := Dead, deaths := if ok then s.deaths + 1 else s.deaths)
    case _ => s
  }

  function KillerStep(s: State, k: nat): State
    requires k in s.killers
  {
    var gone := s.(killers := s.killers - {k});
    match s.killers[k]
    case KPublish => s.(cond := true, cwait := if s.cond then s.cwait else s.wait, killers := s.killers[k := KOn])
    case KOn => s.(killers := s.killers[k := if OnCpu(s) then KState(true, s.wait) else KSw(s.wait)])
    case KSw(o) => s.(killers := s.killers[k := KState(SwitchingOut(s), o)])
    case KState(core, o) =>
      s.(killers := s.killers[k := KIntr(core, o, s.etat)])
    case KIntr(core, o, e) =>
      var a := ActionTueur(e, core, s.intr);
      if a.Reveiller? then s.(killers := s.killers[k := KReveille(core)])
      else if a.TueSurPlace? then s.(killers := s.killers[k := KTue(o, s.wait)])
      else gone
    case KTue(_, _) =>
      var (e, ok) := Tente(s.etat, TueParquee);
      if ok then gone.(etat := e, deaths := s.deaths + 1) else s.(killers := s.killers[k := KOn])
    case KReveille(_) =>
      var (e, ok) := Tente(s.etat, Reveille);
      if ok then gone.(etat := e) else s.(killers := s.killers[k := KOn])
  }

  function Apply(s: State, l: Label): State
    requires Enabled(s, l)
  {
    match l
    case Next => TaskStep(s)
    case Syscall => s.(pc := Kernel)
    case Irq => s.(pc := IrqRead)
    case Return => s.(pc := FrontRead)
    case Wait(i) => s.(pc := PStore(i))
    case Cancel => s.(pc := CancelCas(s.pc.i))
    case Term => s.(pc := TermClear(s.pc.i))
    case SwitchOut => s.(stage := Out1)
    case Stages => s.(stage := if s.stage.Out1? then Out2 else Off)
    case Claim => s.(stage := Claimed)
    case Elect => s.(stage := On)
    case Unclaim => s.(stage := Off)
    case Wake => s.(etat := Tente(s.etat, Reveille).0)
    case NewKiller(k) => s.(killers := s.killers[k := KPublish])
    case KNext(k) => KillerStep(s, k)
  }

  /** A task created ready, about to meet its first frontier. */
  predicate Init(s: State)
  {
    s.etat.Pret? && !s.cond && !s.intr && s.stage.Off? && s.pc.FrontRead? && s.killers == map[]
    && s.wait == 0 && s.cwait == 0 && s.deaths == 0 && s.entries == 0
  }

  /** Zombie is absorbing, and every other move is one of the four. */
  lemma ZombieAbsorbs(s: State, l: Label)
    requires Enabled(s, l)
    ensures s.etat.Zombie? ==> Apply(s, l).etat.Zombie?
    ensures Apply(s, l).etat != s.etat ==> exists t :: Applique(s.etat, t) == Some(Apply(s, l).etat)
  {
    var e := Apply(s, l).etat;
    if e != s.etat {
      var t := if e.Bloque? then Endort else if e.Pret? then Reveille else Meurt;
      assert Applique(s.etat, t) == Some(e);
    }
  }

  /** The interruptible wait the task has committed to: it has read its
      condemnation false after publishing Blocked. */
  predicate Committed(pc: Pc) { (pc.Loop? || pc.Sched? || pc.CancelCas?) && pc.i }

  /** A killer that has published and has yet to settle what it saw. */
  predicate Responsible(k: Kpc) { !k.KPublish? && (k.KIntr? ==> k.e.Bloque?) }

  predicate InWait(pc: Pc, i: bool) { (pc.PCas? || pc.PReread? || pc.Loop? || pc.Sched? || pc.CancelCas?) && pc.i == i }

  predicate InAnyWait(pc: Pc) { InWait(pc, true) || InWait(pc, false) }

  /** Past the reread: the wait goes on, or is being cancelled or ended. */
  predicate Settled(pc: Pc) { pc.Loop? || pc.Sched? || pc.CancelCas? || pc.TermClear? || pc.TermCas? }

  /** The interruptibility of the wait a blocked task is in; one that dies at the
      reread was in an interruptible wait. */
  predicate Interruptible(pc: Pc) { ((pc.PReread? || Settled(pc)) && pc.i) || pc.Die? }

  predicate OffCore(stage: Stage) { stage.Off? || stage.Claimed? }

  /** What a killer knows, as long as the task is still blocked in the wait
      during which it looked. */
  predicate KillerOk(s: State, k: Kpc)
  {
    match k
    case KSw(o) => s.cwait <= o <= s.wait && (o == s.wait && s.etat.Bloque? ==> s.stage.Out2? || OffCore(s.stage))
    case KState(core, o) => s.cwait <= o <= s.wait && (!core && o == s.wait && s.etat.Bloque? ==> OffCore(s.stage))
    case KIntr(core, o, _) => s.cwait <= o <= s.wait && (!core && o == s.wait && s.etat.Bloque? ==> OffCore(s.stage))
    case KTue(o, w) =>
      && s.cwait <= o <= w <= s.wait
      && (o == s.wait && s.etat.Bloque? ==> OffCore(s.stage))
      && (w == s.wait && s.etat.Bloque? ==> Interruptible(s.pc))
    case KReveille(core) => core
    case _ => true
  }

  /** Where the task is in no wait and has none to clear up after. */
  predicate OutsideWaits(pc: Pc)
  {
    pc.User? || pc.Kernel? || pc.FrontRead? || pc.EnterUser? || pc.IrqRead? || pc.IrqGo? || pc.PStore?
  }

  /** What the task's position says of its state. */
  predicate Local(s: State)
  {
    && s.deaths == (if s.etat.Zombie? then 1 else 0)
    && (InWait(s.pc, true) ==> s.intr)
    && (InWait(s.pc, false) ==> !s.intr)
    && (s.pc.TermClear? ==> s.intr == s.pc.i)
    && (s.pc.TermCas? ==> !s.intr)
    && (OutsideWaits(s.pc) ==> !s.intr)
    && (s.pc.Die? ==> s.cond && (s.etat.Bloque? ==> s.intr))
    && (s.etat.Zombie? ==> s.cond)
    && (s.cond && Settled(s.pc) && s.pc.i ==> s.wait <= s.cwait)
    && s.cwait <= s.wait
    && (!s.stage.On? ==> s.pc.Sched? || s.pc.IrqGo? || s.pc.Kernel? || s.pc.FrontRead? || s.pc.Dead?)
    && (s.etat.Bloque? ==> s.pc.PReread? || s.pc.Loop? || s.pc.Sched? || s.pc.CancelCas? || s.pc.TermClear? || s.pc.TermCas? || s.pc.Die?)
    && (s.pc.Dead? ==> s.etat.Zombie?)
    && (!s.cond ==> s.entries == 0)
    && s.entries <= 1
    && (s.entries == 1 ==> !s.pc.EnterUser? && !s.pc.IrqGo?)
  }

  predicate Stuck(s: State) { s.cond && s.etat.Bloque? && Committed(s.pc) }

  /** A condemned task committed to an interruptible wait is being dealt with. */
  ghost predicate Watched(s: State)
  {
    Stuck(s) ==> exists k :: k in s.killers && Responsible(s.killers[k])
  }

  ghost predicate KillersOk(s: State)
  {
    && (forall k :: k in s.killers ==> KillerOk(s, s.killers[k]))
    && (!s.cond ==> forall k :: k in s.killers ==> s.killers[k].KPublish?)
  }

  ghost predicate Inv(s: State) { Local(s) && Watched(s) && KillersOk(s) }

  lemma ParkLocal(s: State)
    requires Local(s) && Enabled(s, Next) && (s.pc.PStore? || s.pc.PCas? || s.pc.PReread? || s.pc.PRefuse? || s.pc.Loop? || s.pc.Sched?)
    ensures Local(TaskStep(s))
  {
  }

  lemma TaskLocal(s: State)
    requires Local(s) && Enabled(s, Next)
    ensures Local(TaskStep(s))
  {
    if s.pc.PStore? || s.pc.PCas? || s.pc.PReread? || s.pc.PRefuse? || s.pc.Loop? || s.pc.Sched? { ParkLocal(s); }
  }

  /** Steps of the task and of the scheduler make no new stuck task. */
  lemma NotStuck(s: State, l: Label)
    requires Local(s) && Enabled(s, l) && !l.KNext?
    ensures Stuck(Apply(s, l)) ==> Stuck(s)
  {
  }

  /** While no new wait begins, a blocked task only moves further off its core
      and its wait keeps its kind. */
  predicate SameWait(s: State, s': State)
  {
    && s'.cwait == s.cwait && s.wait <= s'.wait
    && (s'.etat.Bloque? && s'.wait == s.wait ==>
          && s.etat.Bloque? && (Interruptible(s.pc) ==> Interruptible(s'.pc))
          && (OffCore(s.stage) ==> OffCore(s'.stage)) && (s.stage.Out2? ==> s'.stage.Out2? || OffCore(s'.stage)))
  }

  lemma TaskSameWait(s: State)
    requires Local(s) && Enabled(s, Next)
    ensures SameWait(s, TaskStep(s))
  {
  }

  lemma OtherSameWait(s: State, l: Label)
    requires Local(s) && Enabled(s, l) && !l.KNext? && !l.Next?
    ensures SameWait(s, Apply(s, l))
  {
  }

  lemma OneKiller(s: State, l: Label, x: Kpc)
    requires Local(s) && Enabled(s, l) && !l.KNext? && KillerOk(s, x)
    ensures KillerOk(Apply(s, l), x)
  {
    if l.Next? { TaskSameWait(s); } else { OtherSameWait(s, l); }
  }

  lemma KillersKept(s: State, l: Label)
    requires Enabled(s, l) && !l.KNext? && !l.NewKiller?
    ensures Apply(s, l).killers == s.killers && Apply(s, l).cond == s.cond
  {
  }

  lemma OtherLocal(s: State, l: Label)
    requires Local(s) && Enabled(s, l) && !l.KNext? && !l.Next?
    ensures Local(Apply(s, l))
  {
  }

  lemma OtherInv(s: State, l: Label)
    requires Inv(s) && Enabled(s, l) && !l.KNext?
    ensures Inv(Apply(s, l))
  {
    var s' := Apply(s, l);
    if l.Next? { TaskLocal(s); } else { OtherLocal(s, l); }
    NotStuck(s, l);
    if l.NewKiller? {
      OneKiller(s, l, KPublish);
      forall k | k in s.killers ensures KillerOk(s', s.killers[k]) { OneKiller(s, l, s.killers[k]); }
      if Stuck(s) {
        var k :| k in s.killers && Responsible(s.killers[k]);
        assert k in s'.killers && Responsible(s'.killers[k]);
      }
    } else {
      KillersKept(s, l);
      forall k | k in s.killers ensures KillerOk(s', s.killers[k]) { OneKiller(s, l, s.killers[k]); }
    }
  }

  /** What a killer's access does to the task: condemn it, or move it out of
      Blocked. */
  lemma KillerEffect(s: State, k: nat)
    requires k in s.killers
    ensures var t := KillerStep(s, k);
      && t.pc == s.pc && t.stage == s.stage && t.intr == s.intr && t.wait == s.wait && t.entries == s.entries
      && (t.cwait == s.cwait || (!s.cond && t.cond && t.cwait == s.wait))
      && (s.cond ==> t.cond) && (t.cond != s.cond ==> s.killers[k].KPublish?)
      && (s.killers[k].KPublish? ==> t.etat == s.etat)
      && (|| (t.etat == s.etat && t.deaths == s.deaths)
          || (s.etat.Bloque? && t.etat.Pret? && t.deaths == s.deaths)
          || (s.etat.Bloque? && t.etat.Zombie? && t.deaths == s.deaths + 1))
  {
  }

  lemma KillerLocal(s: State, k: nat)
    requires Local(s) && k in s.killers && (s.cond || s.killers[k].KPublish?)
    ensures Local(KillerStep(s, k))
    ensures forall x :: KillerOk(s, x) && (s.cond || x.KPublish?) ==> KillerOk(KillerStep(s, k), x)
  {
    KillerEffect(s, k);
  }

  /** A killer leaves only a task that is not stuck. */
  lemma KillerLeaves(s: State, k: nat)
    requires Local(s) && k in s.killers && Responsible(s.killers[k]) && k !in KillerStep(s, k).killers
    ensures !Stuck(KillerStep(s, k))
  {
  }

  lemma KillerStays(s: State, k: nat)
    requires Local(s) && k in s.killers && KillerOk(s, s.killers[k]) && k in KillerStep(s, k).killers
    ensures KillerOk(KillerStep(s, k), KillerStep(s, k).killers[k])
    ensures Responsible(KillerStep(s, k).killers[k]) || !Stuck(KillerStep(s, k))
  {
    KillerEffect(s, k);
    KillerLooks(s, k);
  }

  /** What a killer's next look at the task tells it. */
  lemma KillerLooks(s: State, k: nat)
    requires Local(s) && k in s.killers && KillerOk(s, s.killers[k]) && k in KillerStep(s, k).killers
    ensures KillerOk(s, KillerStep(s, k).killers[k])
  {
  }

  lemma KillersElse(s: State, k: nat, j: nat)
    requires k in s.killers && j != k
    ensures j in KillerStep(s, k).killers <==> j in s.killers
    ensures j in s.killers ==> KillerStep(s, k).killers[j] == s.killers[j]
    ensures s.cond ==> KillerStep(s, k).cond
    ensures s.killers[k].KPublish? ==> KillerStep(s, k).cond
  {
  }

  /** A condemned sleeper is not left alone by a killer's step. */
  lemma KillerWatch(s: State, k: nat)
    requires Local(s) && Watched(s) && k in s.killers && KillerOk(s, s.killers[k])
    ensures Watched(KillerStep(s, k))
  {
    var s' := KillerStep(s, k);
    KillerEffect(s, k);
    if Stuck(s') {
      if k in s'.killers {
        KillerStays(s, k);
      } else {
        if Responsible(s.killers[k]) { KillerLeaves(s, k); }
        var j :| j in s.killers && Responsible(s.killers[j]);
        KillersElse(s, k, j);
      }
    }
  }

  lemma KillerInv(s: State, k: nat)
    requires Inv(s) && k in s.killers
    ensures Inv(KillerStep(s, k))
  {
    var s' := KillerStep(s, k);
    KillerLocal(s, k);
    KillerEffect(s, k);
    assert KillerOk(s, s.killers[k]);
    KillerWatch(s, k);
    if k in s'.killers { KillerStays(s, k); }
    forall j | j in s'.killers ensures KillerOk(s', s'.killers[j]) {
      if j != k { KillersElse(s, k, j); assert KillerOk(s, s.killers[j]); }
    }
    KillersElse(s, k, k + 1);
  }

  lemma StepInv(s: State, l: Label)
    requires Inv(s) && Enabled(s, l)
    ensures Inv(Apply(s, l))
  {
    if l.KNext? { KillerInv(s, l.k); } else { OtherInv(s, l); }
  }

  // ---- Whole runs ----

  ghost predicate Run(states: seq<State>, labels: seq<Label>)
  {
    && |states| == |labels| + 1
    && Init(states[0])
    && forall i :: 0 <= i < |labels| ==> Enabled(states[i], labels[i]) && states[i + 1] == Apply(states[i], labels[i])
  }

  lemma {:induction false} RunInv(states: seq<State>, labels: seq<Label>, i: nat)
    requires Run(states, labels) && i <= |labels|
    ensures Inv(states[i])
  {
    if i > 0 {
      RunInv(states, labels, i - 1);
      assert states[i - 1 + 1] == Apply(states[i - 1], labels[i - 1]);
      StepInv(states[i - 1], labels[i - 1]);
    }
  }

  /** Once dead, dead for the rest of the run; and it died once. */
  lemma {:induction false} DeadForever(states: seq<State>, labels: seq<Label>, i: nat, j: nat)
    requires Run(states, labels) && i <= j <= |labels| && states[i].etat.Zombie?
    ensures states[j].etat.Zombie? && states[j].deaths == 1
    decreases j - i
  {
    if i < j {
      DeadForever(states, labels, i, j - 1);
      DeadNext(states, labels, j - 1);
    }
    DeadOnce(states, labels, j);
  }

  lemma DeadOnce(states: seq<State>, labels: seq<Label>, j: nat)
    requires Run(states, labels) && j <= |labels| && states[j].etat.Zombie?
    ensures states[j].deaths == 1
  {
    RunInv(states, labels, j);
  }

  lemma DeadNext(states: seq<State>, labels: seq<Label>, j: nat)
    requires Run(states, labels) && j < |labels| && states[j].etat.Zombie?
    ensures states[j + 1].etat.Zombie?
  {
    ZombieAbsorbs(states[j], labels[j]);
  }

  /** A condemned task never stays in an interruptible wait: once the killers
      have finished, it is not blocked in one it has committed to. */
  lemma NoCondemnedSleeper(states: seq<State>, labels: seq<Label>, i: nat)
    requires Run(states, labels) && i <= |labels| && states[i].cond
    requires forall k :: k in states[i].killers ==> !Responsible(states[i].killers[k])
    ensures !(states[i].etat.Bloque? && Committed(states[i].pc))
  {
    RunInv(states, labels, i);
  }

  /** After its condemnation a task enters user code at most once more: only if
      it had read the flag just before, and it never passes another frontier. */
  lemma AtMostOneEntry(states: seq<State>, labels: seq<Label>, i: nat)
    requires Run(states, labels) && i <= |labels|
    ensures states[i].entries <= 1
    ensures states[i].entries == 1 ==> !states[i].pc.EnterUser? && !states[i].pc.IrqGo?
  {
    RunInv(states, labels, i);
  }

  /** A task dies only condemned; at its parking, only in an interruptible wait;
      and outside its waits it is never marked interruptible. */
  lemma OnlyCondemnedDie(states: seq<State>, labels: seq<Label>, i: nat)
    requires Run(states, labels) && i <= |labels|
    ensures states[i].etat.Zombie? || states[i].pc.Die? ==> states[i].cond
    ensures states[i].pc.Die? && states[i].etat.Bloque? ==> states[i].intr
    ensures OutsideWaits(states[i].pc) ==> !states[i].intr
  {
    RunInv(states, labels, i);
  }

  // ---- What a killer has seen ----

  /** One killer's progress in one step, by what it reads. */
  predicate KMoves(s: State, s': State, k: nat)
    requires k in s.killers && k in s'.killers
  {
    var x, y := s.killers[k], s'.killers[k];
    y != x ==> match y
      case KPublish => false
      case KOn => (x.KPublish? && s'.cond) || ((x.KTue? || x.KReveille?) && !s.etat.Bloque?)
      case KSw(_) => x.KOn? && !OnCpu(s)
      case KState(core, _) => if core then (x.KOn? && OnCpu(s)) || (x.KSw? && SwitchingOut(s)) else x.KSw? && !SwitchingOut(s)
      case KIntr(core, _, e) => x.KState? && x.core == core && e == s.etat
      case KTue(_, _) => x.KIntr? && x.e.Bloque? && !x.core && s.intr
      case KReveille(_) => x.KIntr? && x.e.Bloque? && x.core
  }

  lemma KMovesStep(s: State, l: Label, k: nat)
    requires Enabled(s, l) && k in s.killers && k in Apply(s, l).killers
    ensures KMoves(s, Apply(s, l), k)
  {
    if l.KNext? {
      if l.k != k { KillersElse(s, l.k, k); }
    } else if !l.NewKiller? {
      KillersKept(s, l);
    }
  }

  lemma KMovesAt(states: seq<State>, labels: seq<Label>, k: nat, m: nat)
    requires Run(states, labels) && m < |labels| && k in states[m + 1].killers
    ensures k !in states[m].killers ==> states[m + 1].killers[k].KPublish?
    ensures k in states[m].killers ==> KMoves(states[m], states[m + 1], k)
  {
    assert Enabled(states[m], labels[m]) && states[m + 1] == Apply(states[m], labels[m]);
    if k in states[m].killers { KMovesStep(states[m], labels[m], k); } else { KillerArrives(states[m], labels[m], k); }
  }

  lemma KillerArrives(s: State, l: Label, k: nat)
    requires Enabled(s, l) && k !in s.killers && k in Apply(s, l).killers
    ensures Apply(s, l).killers[k].KPublish?
  {
    if l.KNext? { KillersElse(s, l.k, k); } else if !l.NewKiller? { KillersKept(s, l); }
  }

  predicate OnCore(s: State) { OnCpu(s) || SwitchingOut(s) }

  /** What a killer at `x` must have read at some earlier moment. */
  predicate Told(x: Kpc, s: State)
  {
    match x
    case KState(core, _) => core ==> OnCore(s)
    case KIntr(core, _, _) => core ==> OnCore(s)
    case KReveille(_) => OnCore(s)
    case KTue(_, _) => s.intr
    case _ => true
  }

  predicate Tells(x: Kpc) { ((x.KState? || x.KIntr?) && x.core) || x.KReveille? || x.KTue? }

  lemma {:induction false} KillerSaw(states: seq<State>, k: nat, n: nat) returns (r: nat)
    requires n < |states| && k in states[n].killers && k !in states[0].killers
    requires forall m :: 0 <= m < n && k in states[m + 1].killers ==>
               (k !in states[m].killers ==> states[m + 1].killers[k].KPublish?)
               && (k in states[m].killers ==> KMoves(states[m], states[m + 1], k))
    ensures Tells(states[n].killers[k]) ==> r < n && k in states[r].killers && Told(states[n].killers[k], states[r])
  {
    r := 0;
    assert n > 0 && k in states[n - 1 + 1].killers;
    if Tells(states[n].killers[k]) {
      var x, y := states[n - 1].killers[k], states[n].killers[k];
      if y != x && (y.KState? || y.KTue?) { r := n - 1; } else { r := KillerSaw(states, k, n - 1); }
    }
  }

  /** A killer ends only a wait it may end: the access that takes the task out of
      Blocked is that of a killer which had read it on a core or leaving one, and
      wakes it, or which had read its wait interruptible, and kills it. */
  lemma KillerEndsOnlyItsWaits(states: seq<State>, labels: seq<Label>, i: nat, k: nat) returns (r: nat)
    requires Run(states, labels) && i < |labels| && labels[i] == KNext(k) && states[i].etat.Bloque? && !states[i + 1].etat.Bloque?
    ensures r < i && k in states[r].killers
    ensures if states[i + 1].etat.Pret? then OnCore(states[r]) else states[i + 1].etat.Zombie? && states[r].intr
  {
    forall m | 0 <= m < i && k in states[m + 1].killers
      ensures k !in states[m].killers ==> states[m + 1].killers[k].KPublish?
      ensures k in states[m].killers ==> KMoves(states[m], states[m + 1], k)
    {
      KMovesAt(states, labels, k, m);
    }
    assert Enabled(states[i], labels[i]) && states[i + 1] == Apply(states[i], labels[i]);
    KillerEnds(states[i], k);
    r := KillerSaw(states, k, i);
  }

  lemma KillerEnds(s: State, k: nat)
    requires k in s.killers && s.etat.Bloque? && !KillerStep(s, k).etat.Bloque?
    ensures if KillerStep(s, k).etat.Pret? then s.killers[k].KReveille? else KillerStep(s, k).etat.Zombie? && s.killers[k].KTue?
  {
  }

  /** Why a killer stops: it read the task ready -- the frontier will see to it --
      or dead; or blocked off every core in an uninterruptible wait; or has itself
      just taken it out of Blocked.  A compare-and-swap that fails starts it over. */
  predicate Done(x: Kpc, s: State)
  {
    match x
    case KIntr(core, _, e) => !e.Bloque? || (!core && !s.intr)
    case KTue(_, _) => s.etat.Bloque?
    case KReveille(_) => s.etat.Bloque?
    case _ => false
  }

  lemma KillerStopsIffDone(states: seq<State>, labels: seq<Label>, i: nat, k: nat)
    requires Run(states, labels) && i < |labels| && k in states[i].killers && labels[i] == KNext(k)
    ensures k !in states[i + 1].killers <==> Done(states[i].killers[k], states[i])
    ensures (states[i].killers[k].KTue? || states[i].killers[k].KReveille?) && k in states[i + 1].killers ==> states[i + 1].killers[k].KOn?
  {
    assert Enabled(states[i], labels[i]) && states[i + 1] == Apply(states[i], labels[i]);
  }

  /** A killer that finds the task parked off every core in an uninterruptible wait
      leaves it to its event: nothing changes but that the killer is done. */
  lemma ParkedIsLeftAlone(states: seq<State>, labels: seq<Label>, i: nat, k: nat)
    requires Run(states, labels) && i < |labels| && labels[i] == KNext(k)
    requires states[i].killers[k].KIntr? && states[i].killers[k].e.Bloque? && !states[i].killers[k].core && !states[i].intr
    ensures states[i + 1] == states[i].(killers := states[i].killers - {k})
  {
    assert Enabled(states[i], labels[i]) && states[i + 1] == Apply(states[i], labels[i]);
  }

  /** The design of the kill in place: the victim is in an interruptible wait and
      on no core. */
  predicate AsDesigned(s: State) { Interruptible(s.pc) && OffCore(s.stage) }

  /** A kill in place about to land -- the task is blocked -- lands as designed if
      and only if the task has begun no other wait since the killer read on_cpu;
      and, for a task past its reread, in an interruptible wait if and only if it
      has begun none since the killer read the interruptibility. */
  lemma KillAsDesigned(states: seq<State>, labels: seq<Label>, i: nat, k: nat)
    requires Run(states, labels) && i <= |labels| && k in states[i].killers && states[i].killers[k].KTue?
    requires states[i].etat.Bloque?
    ensures AsDesigned(states[i]) <==> states[i].wait == states[i].killers[k].o
    ensures Settled(states[i].pc) ==> (Interruptible(states[i].pc) <==> states[i].wait == states[i].killers[k].w)
  {
    RunInv(states, labels, i);
    var s := states[i];
    assert KillerOk(s, s.killers[k]);
    assert s.cond;
  }

  // ---- Kills that land in a later wait ----

  const FRESH := State(Pret, false, false, Off, FrontRead, map[], 0, 0, 0, 0)

  /** Off its CPU in an interruptible wait, with a killer at `k`. */
  function Parked(k: Kpc): State { State(Bloque, true, true, Off, Sched(true), map[7 := k], 1, 1, 0, 0) }

  /** The killer has judged that wait and is about to compare and swap ... */
  const JUDGED := KTue(1, 1)

  /** ... or has only found the task off its CPU. */
  const LOOKED := KState(false, 1)

  /** Woken, resumed, back in the kernel, blocked again -- uninterruptibly, on
      its CPU -- and killed by that compare-and-swap. */
  const VICTIM := State(Zombie, true, false, On, Loop(false), map[], 2, 1, 1, 0)

  /** The same in an interruptible wait, which the killer did judge, before the
      task could reread its condemnation: killed while running. */
  const RUNNING_VICTIM := State(Zombie, true, true, On, PReread(true), map[], 2, 1, 1, 0)

  function Step(s: State, l: Label): Option<State> { if Enabled(s, l) then Some(Apply(s, l)) else None }

  function ToSleep(): seq<Label> { [Claim, Elect, Next, Next, Syscall, Wait(true)] }

  function ToSched(): seq<Label> { [Next, Next, Next, Next] }

  function ToOff(): seq<Label> { [SwitchOut, Stages, Stages] }

  function ToLook(): seq<Label> { [NewKiller(7), KNext(7), KNext(7), KNext(7)] }

  function ToJudgement(): seq<Label> { [KNext(7), KNext(7)] }

  function ToBack(): seq<Label> { [Wake, Claim, Elect] }

  function ToKernel(): seq<Label> { [Next, Next, Next] }

  function ToWait(i: bool): seq<Label> { [Wait(i), Next, Next] }

  const SLEEPING := FRESH.(stage := On, pc := PStore(true))
  const PARKED := State(Bloque, false, true, Off, Sched(true), map[], 1, 0, 0, 0)

  function Resumed(k: Kpc): State { Parked(k).(etat := Pret, stage := On) }

  function Back(k: Kpc): State { State(Pret, true, false, On, Kernel, map[7 := k], 1, 1, 0, 0) }

  /** Blocked again, on its CPU, about to reread its condemnation. */
  function Again(i: bool, k: Kpc): State { Back(k).(etat := Bloque, intr := i, pc := PReread(i), wait := 2) }

  lemma SleepLeads() ensures Leads(Step, FRESH, ToSleep(), SLEEPING) {}

  lemma SchedLeads() ensures Leads(Step, SLEEPING, ToSched(), PARKED.(stage := On)) {}

  lemma OffLeads() ensures Leads(Step, PARKED.(stage := On), ToOff(), PARKED) {}

  lemma LookLeads()
    ensures Leads(Step, PARKED, ToLook(), Parked(LOOKED))
  {
    var s := Parked(KOn);
    assert Apply(Apply(PARKED, NewKiller(7)), KNext(7)) == s by { assert map[7 := KPublish][7 := KOn] == map[7 := KOn]; }
    assert Apply(Apply(s, KNext(7)), KNext(7)) == Parked(LOOKED) by {
      assert map[7 := KOn][7 := KSw(1)][7 := KState(false, 1)] == map[7 := KState(false, 1)];
    }
  }

  lemma JudgementLeads()
    ensures Leads(Step, Parked(LOOKED), ToJudgement(), Parked(JUDGED))
  {
    assert Parked(LOOKED).killers[7 := KIntr(false, 1, Bloque)][7 := JUDGED] == Parked(JUDGED).killers;
  }

  lemma WakeLeads(k: Kpc) ensures Leads(Step, Parked(k), ToBack(), Resumed(k)) {}

  lemma KernelLeads(k: Kpc) ensures Leads(Step, Resumed(k), ToKernel(), Back(k)) {}

  lemma WaitLeads(i: bool, k: Kpc) ensures Leads(Step, Back(k), ToWait(i), Again(i, k)) {}

  /** A killer at `k` while the task is off its CPU; the task then comes back and
      blocks again. */
  lemma AgainLeads(k: Kpc, i: bool)
    ensures Leads(Step, Parked(k), ToBack() + (ToKernel() + ToWait(i)), Again(i, k))
  {
    WakeLeads(k);
    KernelLeads(k);
    WaitLeads(i, k);
    LeadsConcat(Step, Resumed(k), ToKernel(), Back(k), ToWait(i), Again(i, k));
    LeadsConcat(Step, Parked(k), ToBack(), Resumed(k), ToKernel() + ToWait(i), Again(i, k));
  }

  lemma LaterWaitLeads() ensures Leads(Step, Again(false, JUDGED), [Next, KNext(7)], VICTIM) {}

  lemma NewWaitLeads()
    ensures Leads(Step, Again(true, LOOKED), [KNext(7), KNext(7), KNext(7)], RUNNING_VICTIM)
  {
    var s, t := Again(true, KIntr(false, 1, Bloque)), Again(true, KTue(1, 2));
    assert Apply(Again(true, LOOKED), KNext(7)) == s by { assert map[7 := LOOKED][7 := KIntr(false, 1, Bloque)] == s.killers; }
    assert Apply(s, KNext(7)) == t by { assert map[7 := KIntr(false, 1, Bloque)][7 := KTue(1, 2)] == t.killers; }
  }

  lemma LookedLeads() returns (labels: seq<Label>)
    ensures Leads(Step, FRESH, labels, Parked(LOOKED))
  {
    SleepLeads();
    SchedLeads();
    OffLeads();
    LookLeads();
    LeadsConcat(Step, PARKED.(stage := On), ToOff(), PARKED, ToLook(), Parked(LOOKED));
    LeadsConcat(Step, SLEEPING, ToSched(), PARKED.(stage := On), ToOff() + ToLook(), Parked(LOOKED));
    labels := ToSched() + (ToOff() + ToLook());
    LeadsConcat(Step, FRESH, ToSleep(), SLEEPING, labels, Parked(LOOKED));
    labels := ToSleep() + labels;
  }

  lemma RunFromFresh(labels: seq<Label>, s: State) returns (states: seq<State>)
    requires Leads(Step, FRESH, labels, s)
    ensures Run(states, labels) && states[|labels|] == s
  {
    states := LeadsPath(Step, FRESH, labels, s);
    forall i | 0 <= i < |labels| ensures Enabled(states[i], labels[i]) && states[i + 1] == Apply(states[i], labels[i]) {
      assert Step(states[i], labels[i]) == Some(states[i + 1]);
    }
  }

  /** The kill in place is not tied to the wait it was decided on: a wake-up
      between the decision and the compare-and-swap lets it land in a later,
      uninterruptible wait, with the task still on its CPU. */
  lemma KillCanHitLaterWait() returns (states: seq<State>, labels: seq<Label>)
    ensures Run(states, labels) && states[|labels|] == VICTIM
    ensures VICTIM.etat.Zombie? && InWait(VICTIM.pc, false) && VICTIM.stage.On?
  {
    var a := LookedLeads();
    var b := ToBack() + (ToKernel() + ToWait(false));
    JudgementLeads();
    AgainLeads(JUDGED, false);
    LaterWaitLeads();
    LeadsConcat(Step, Parked(JUDGED), b, Again(false, JUDGED), [Next, KNext(7)], VICTIM);
    LeadsConcat(Step, Parked(LOOKED), ToJudgement(), Parked(JUDGED), b + [Next, KNext(7)], VICTIM);
    LeadsConcat(Step, FRESH, a, Parked(LOOKED), ToJudgement() + (b + [Next, KNext(7)]), VICTIM);
    labels := a + (ToJudgement() + (b + [Next, KNext(7)]));
    states := RunFromFresh(labels, VICTIM);
  }

  /** ... and not tied to the wait during which it found the task off its CPU:
      state and interruptibility read in the later wait, it kills a running task
      that has not reread its condemnation. */
  lemma KillCanHitRunningTask() returns (states: seq<State>, labels: seq<Label>)
    ensures Run(states, labels) && states[|labels|] == RUNNING_VICTIM
    ensures RUNNING_VICTIM.etat.Zombie? && InWait(RUNNING_VICTIM.pc, true) && RUNNING_VICTIM.stage.On?
  {
    var a := LookedLeads();
    var b, c := ToBack() + (ToKernel() + ToWait(true)), [KNext(7), KNext(7), KNext(7)];
    AgainLeads(LOOKED, true);
    NewWaitLeads();
    LeadsConcat(Step, Parked(LOOKED), b, Again(true, LOOKED), c, RUNNING_VICTIM);
    LeadsConcat(Step, FRESH, a, Parked(LOOKED), b + c, RUNNING_VICTIM);
    labels := a + (b + c);
    states := RunFromFresh(labels, RUNNING_VICTIM);
  }
}
