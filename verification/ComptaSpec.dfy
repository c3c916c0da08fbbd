/** CPU-time accounting of one task: its totals, the open slice kept in the
    block of the CPU it runs on, and the three transitions that write them. */
module ComptaSpec {
  import opened Commun

  function SubSat(a: nat, b: nat): nat { if a >= b then a - b else 0 }

  /** The per-CPU block: time already split since the slice opened, the instant
      the current fragment opened (0: none), and its side. */
  datatype Block = Block(user: nat, kern: nat, debut: nat, enNoyau: bool)

  /** The task's durable totals, its cursor (0: not accounted) and the side it
      was on when last folded. */
  datatype Fields = Fields(last: nat, user: nat, kern: nat, inKernel: bool)

  /** A fold: what the block holds plus the open fragment goes to the totals. */
  function Folded(f: Fields, b: Block, now: nat): (Fields, Block)
  {
    if f.last == 0 then (f, b)
    else
      var fragment := if b.debut != 0 then SubSat(now, b.debut) else 0;
      var user := if b.debut != 0 && !b.enNoyau then Sat(b.user + fragment) else b.user;
      var kern := if b.debut != 0 && b.enNoyau then Sat(b.kern + fragment) else b.kern;
      (Fields(now, Sat(f.user + user), Sat(f.kern + kern), b.enNoyau), Block(0, 0, now, b.enNoyau))
  }

  /** The end of a slice: fold, then disarm task and block. */
  function Ended(f: Fields, b: Block, now: nat): (Fields, Block)
  {
    if f.last == 0 then (f, b)
    else
      var (g, c) := Folded(f, b, now);
      (g.(last := 0), Block(0, 0, 0, c.enNoyau))
  }

  /** The opening of a slice, on the side the task was folded on. */
  function Armed(f: Fields, b: Block, now: nat): (Fields, Block)
  {
    if f.last != 0 then (f, b) else (f.(last := now), Block(0, 0, now, f.inKernel))
  }

  /** A user/kernel boundary: close the fragment, open the next. */
  function Crossed(b: Block, now: nat, toKernel: bool): Block
  {
    if b.debut == 0 then b.(enNoyau := toKernel)
    else
      var e := SubSat(now, b.debut);
      Block(if b.enNoyau then b.user else (b.user + e) % (U64_MAX + 1),
            if b.enNoyau then (b.kern + e) % (U64_MAX + 1) else b.kern, now, toKernel)
  }

  /** What a reader adds to the totals for a slice still open at `now`. */
  function Live(b: Block, now: nat): (nat, nat)
  {
    var fragment := if b.debut != 0 then SubSat(now, b.debut) else 0;
    (Sat(b.user + (if b.enNoyau then 0 else fragment)), Sat(b.kern + (if b.enNoyau then fragment else 0)))
  }

  /** Why the folding instant is read inside the section: a slice read live at
      `seen` and then folded at `now` goes back exactly when `now` is earlier. */
  lemma FoldKeepsWhatWasSeen(f: Fields, b: Block, seen: nat, now: nat)
    requires f.last != 0 && 0 < b.debut <= seen && b.debut <= now
    requires f.user + b.user + f.kern + b.kern + seen <= U64_MAX && f.user + b.user + f.kern + b.kern + now <= U64_MAX
    ensures var after := Ended(f, b, now).0;
      (f.user + Live(b, seen).0 <= after.user && f.kern + Live(b, seen).1 <= after.kern) <==> seen <= now
  {
  }

  // ---- What the writers mean to a reader ----

  /** The pair a reader computes at `t`: totals, plus the open slice. */
  function Reading(f: Fields, b: Block, t: nat): (nat, nat)
  {
    if f.last == 0 then (f.user, f.kern) else (f.user + Live(b, t).0, f.kern + Live(b, t).1)
  }

  /** Nothing saturates up to `t`. */
  predicate Room(f: Fields, b: Block, t: nat) { f.user + f.kern + b.user + b.kern + SubSat(t, b.debut) <= U64_MAX }

  /** A slice is open, its fragment not after `now`. */
  predicate Runs(f: Fields, b: Block, now: nat) { f.last != 0 && 0 < b.debut <= now }

  function Plus(r: (nat, nat), inKernel: bool, d: nat): (nat, nat)
  {
    if inKernel then (r.0, r.1 + d) else (r.0 + d, r.1)
  }

  /** An open slice grows on its own side, by the time elapsed. */
  lemma Grows(f: Fields, b: Block, now: nat, t: nat)
    requires Runs(f, b, now) && now <= t && Room(f, b, t)
    ensures Reading(f, b, t) == Plus(Reading(f, b, now), b.enNoyau, t - now)
  {
  }

  /** A fold is invisible: at every later instant a reader computes what it would
      have computed without it.  Nothing is lost, nothing is counted twice. */
  lemma FoldInvisible(f: Fields, b: Block, now: nat, t: nat)
    requires Runs(f, b, now) && now <= t && Room(f, b, t)
    ensures var (g, c) := Folded(f, b, now);
      Runs(g, c, now) && Room(g, c, t) && c.enNoyau == b.enNoyau && Reading(g, c, t) == Reading(f, b, t)
  {
  }

  /** The end of a slice freezes the reading of that instant. */
  lemma EndFreezes(f: Fields, b: Block, now: nat, t: nat)
    requires Runs(f, b, now) && Room(f, b, now)
    ensures var (g, c) := Ended(f, b, now); g.last == 0 && Reading(g, c, t) == Reading(f, b, now)
  {
  }

  /** ... and leaves the CPU's block empty, where no boundary counts any time. */
  lemma EndDisarms(f: Fields, b: Block, now: nat, t: nat, toKernel: bool)
    requires f.last != 0
    ensures var c := Ended(f, b, now).1; Live(c, t) == (0, 0) && Live(Crossed(c, t, toKernel), t) == (0, 0)
    ensures var c := Ended(f, b, now).1; Crossed(c, t, toKernel) == c.(enNoyau := toKernel)
  {
  }

  /** Opening a slice changes no reading now and starts time on the task's side. */
  lemma ArmStarts(f: Fields, b: Block, now: nat, t: nat)
    requires f.last == 0 && 0 < now <= t && f.user + f.kern + (t - now) <= U64_MAX
    ensures var (g, c) := Armed(f, b, now);
      Runs(g, c, now) && Room(g, c, t) && Reading(g, c, t) == Plus(Reading(f, b, now), f.inKernel, t - now)
  {
  }

  /** A boundary changes no reading now and sends the time to come to the other
      side. */
  lemma CrossTurns(f: Fields, b: Block, now: nat, toKernel: bool, t: nat)
    requires Runs(f, b, now) && now <= t && Room(f, b, t)
    ensures var c := Crossed(b, now, toKernel);
      && Runs(f, c, now) && Room(f, c, t) && c.enNoyau == toKernel
      && Reading(f, c, t) == Plus(Reading(f, b, now), toKernel, t - now)
  {
    var e := now - b.debut;
    NoWrap(b.user + e);
    NoWrap(b.kern + e);
  }

  lemma NoWrap(n: nat)
    requires n <= U64_MAX
    ensures n % (U64_MAX + 1) == n
  {
  }

  /** Should the clock read earlier than the open fragment began, that fragment
      counts for nothing, and no time is taken back. */
  lemma ClockBackwards(f: Fields, b: Block, now: nat, toKernel: bool)
    requires f.last != 0 && now < b.debut && f.user + f.kern + b.user + b.kern <= U64_MAX
    ensures Live(b, now) == (b.user, b.kern)
    ensures Folded(f, b, now).0.user == f.user + b.user && Folded(f, b, now).0.kern == f.kern + b.kern
    ensures Crossed(b, now, toKernel).user == b.user && Crossed(b, now, toKernel).kern == b.kern
  {
    NoWrap(b.user);
    NoWrap(b.kern);
  }

  // ---- A whole slice ----

  datatype Event = Fold(at: nat) | Boundary(at: nat, toKernel: bool)

  /** Events in time order, from `from` to `to`. */
  predicate Ordered(es: seq<Event>, from: nat, to: nat)
  {
    && from <= to
    && (forall i :: 0 <= i < |es| ==> from <= es[i].at <= to)
    && forall i, j :: 0 <= i < j < |es| ==> es[i].at <= es[j].at
  }

  function Happened(f: Fields, b: Block, e: Event): (Fields, Block)
  {
    match e
    case Fold(at) => Folded(f, b, at)
    case Boundary(at, toK) => (f, Crossed(b, at, toK))
  }

  /** The state after the events from the `i`-th on. */
  function Played(f: Fields, b: Block, es: seq<Event>, i: nat): (Fields, Block)
    requires i <= |es|
    decreases |es| - i
  {
    if i == |es| then (f, b)
    else var (g, c) := Happened(f, b, es[i]); Played(g, c, es, i + 1)
  }

  function Turned(inKernel: bool, e: Event): bool { if e.Boundary? then e.toKernel else inKernel }

  /** Time from `from` to `to` spent on the kernel side (`k`) or the user side,
      starting on side `inKernel`, turning at the boundaries from the `i`-th
      event on. */
  function Spent(es: seq<Event>, i: nat, inKernel: bool, from: nat, to: nat, k: bool): nat
    requires i <= |es|
    decreases |es| - i
  {
    if i == |es| then (if inKernel == k then SubSat(to, from) else 0)
    else
      (if inKernel == k then SubSat(es[i].at, from) else 0)
      + Spent(es, i + 1, Turned(inKernel, es[i]), es[i].at, to, k)
  }

  /** However a slice is cut by folds and boundaries, its end adds to each total
      exactly the time spent on that side. */
  lemma {:induction false} SliceAddsTimeSpent(f: Fields, b: Block, es: seq<Event>, i: nat, from: nat, to: nat)
    requires i <= |es| && Runs(f, b, from) && Room(f, b, to) && from <= to
    requires forall j :: i <= j < |es| ==> from <= es[j].at <= to
    requires forall j, k :: i <= j < k < |es| ==> es[j].at <= es[k].at
    ensures var (g, c) := Played(f, b, es, i); var done := Ended(g, c, to).0;
      && done.last == 0
      && done.user == Reading(f, b, from).0 + Spent(es, i, b.enNoyau, from, to, false)
      && done.kern == Reading(f, b, from).1 + Spent(es, i, b.enNoyau, from, to, true)
    decreases |es| - i
  {
    if i == |es| {
      EndFreezes(f, b, to, to);
      Grows(f, b, from, to);
    } else {
      var at := es[i].at;
      var (g, c) := Happened(f, b, es[i]);
      Grows(f, b, from, at);
      if es[i].Fold? {
        FoldInvisible(f, b, at, to);
        FoldInvisible(f, b, at, at);
      } else {
        CrossTurns(f, b, at, es[i].toKernel, to);
        CrossTurns(f, b, at, es[i].toKernel, at);
      }
      SliceAddsTimeSpent(g, c, es, i + 1, at, to);
    }
  }

  /** ... and no instant of it is left out or counted twice. */
  lemma {:induction false} SpentIsAll(es: seq<Event>, i: nat, inKernel: bool, from: nat, to: nat)
    requires i <= |es| && from <= to
    requires forall j :: i <= j < |es| ==> from <= es[j].at <= to
    requires forall j, k :: i <= j < k < |es| ==> es[j].at <= es[k].at
    ensures Spent(es, i, inKernel, from, to, false) + Spent(es, i, inKernel, from, to, true) == to - from
    decreases |es| - i
  {
    if i < |es| { SpentIsAll(es, i + 1, Turned(inKernel, es[i]), es[i].at, to); }
  }

  /** From the election to the end of the slice: the totals grow by the whole
      time between the two, each side by its share. */
  lemma SliceConserved(f: Fields, b: Block, es: seq<Event>, start: nat, end: nat)
    requires f.last == 0 && 0 < start && Ordered(es, start, end) && f.user + f.kern + (end - start) <= U64_MAX
    ensures var (a, o) := Armed(f, b, start); var (g, c) := Played(a, o, es, 0); var done := Ended(g, c, end).0;
      && done.user == f.user + Spent(es, 0, f.inKernel, start, end, false)
      && done.kern == f.kern + Spent(es, 0, f.inKernel, start, end, true)
      && done.user + done.kern == f.user + f.kern + (end - start)
  {
    var (a, o) := Armed(f, b, start);
    SliceAddsTimeSpent(a, o, es, 0, start, end);
    SpentIsAll(es, 0, f.inKernel, start, end);
  }

  // ---- The code that updates the counters in place ----

  class Compte {
    var lastAccountNs: nat
    var userCpuNs: nat
    var kernelCpuNs: nat
    var inKernel: bool
    var comptaUserNs: nat
    var comptaNoyauNs: nat
    var comptaDebutNs: nat
    var comptaEnNoyau: bool

    ghost function F(): Fields reads this { Fields(lastAccountNs, userCpuNs, kernelCpuNs, inKernel) }

    ghost function B(): Block reads this { Block(comptaUserNs, comptaNoyauNs, comptaDebutNs, comptaEnNoyau) }

    /** The pair a reader computes at `t`. */
    ghost function Reads(t: nat): (nat, nat) reads this { Reading(F(), B(), t) }

    ghost predicate Running(now: nat) reads this { Runs(F(), B(), now) }

    ghost predicate Fits(t: nat) reads this { Room(F(), B(), t) }

    /** Moves the open slice into the totals; no later reading can tell. */
    method AccountUntil(now: nat)
      modifies this
      ensures old(lastAccountNs) == 0 ==> unchanged(this)
      ensures old(lastAccountNs) != 0 ==> lastAccountNs == comptaDebutNs == now && comptaUserNs == comptaNoyauNs == 0
      ensures comptaEnNoyau == old(comptaEnNoyau)
      ensures old(Running(now)) ==> forall t :: now <= t && old(Fits(t)) ==> Reads(t) == old(Reads(t))
      ensures (F(), B()) == Folded(old(F()), old(B()), now)
    {
      if lastAccountNs == 0 {
        return;
      }
      ghost var f, b := F(), B();
      var user, noyau := comptaUserNs, comptaNoyauNs;
      comptaUserNs, comptaNoyauNs := 0, 0;
      var debut := comptaDebutNs;
      if debut != 0 {
        var fragment := SubSat(now, debut);
        if comptaEnNoyau {
          noyau := Sat(noyau + fragment);
        } else {
          user := Sat(user + fragment);
        }
      }
      userCpuNs := Sat(userCpuNs + user);
      kernelCpuNs := Sat(kernelCpuNs + noyau);
      inKernel := comptaEnNoyau;
      comptaDebutNs := now;
      lastAccountNs := now;
      assert (F(), B()) == Folded(f, b, now);
      forall t | Runs(f, b, now) && now <= t && Room(f, b, t) ensures Reading(F(), B(), t) == Reading(f, b, t) {
        FoldInvisible(f, b, now, t);
      }
    }

    /** Closes the slice: every later reading is the one of this instant. */
    method AccountSliceEnd(now: nat)
      modifies this
      ensures lastAccountNs == 0
      ensures old(lastAccountNs) == 0 ==> unchanged(this)
      ensures old(lastAccountNs) != 0 ==> comptaDebutNs == comptaUserNs == comptaNoyauNs == 0
      ensures old(Running(now)) && old(Fits(now)) ==> forall t :: Reads(t) == old(Reads(now))
      ensures (F(), B()) == Ended(old(F()), old(B()), now)
    {
      if lastAccountNs == 0 {
        return;
      }
      ghost var f, b := F(), B();
      AccountUntil(now);
      lastAccountNs := 0;
      comptaDebutNs, comptaUserNs, comptaNoyauNs := 0, 0, 0;
      forall t | Runs(f, b, now) && Room(f, b, now) ensures Reading(F(), B(), t) == Reading(f, b, now) {
        EndFreezes(f, b, now, t);
      }
    }

    /** Opens a slice: no reading jumps, and from `now` on time runs on the side
        the task was left on.  An open slice is left alone. */
    method ArmeTranche(now: nat)
      modifies this
      ensures old(lastAccountNs) != 0 ==> unchanged(this)
      ensures old(lastAccountNs) == 0 && now > 0 ==> Running(now)
      ensures old(lastAccountNs) == 0 && now > 0 ==>
                forall t :: now <= t && userCpuNs + kernelCpuNs + (t - now) <= U64_MAX
                  ==> Reads(t) == Plus(old(Reads(now)), old(inKernel), t - now)
      ensures (F(), B()) == Armed(old(F()), old(B()), now)
    {
      if lastAccountNs != 0 {
        return;
      }
      ghost var f, b := F(), B();
      lastAccountNs := now;
      comptaDebutNs := now;
      comptaUserNs := 0;
      comptaNoyauNs := 0;
      comptaEnNoyau := inKernel;
      forall t | 0 < now <= t && f.user + f.kern + (t - now) <= U64_MAX
        ensures Reading(F(), B(), t) == Plus(Reading(f, b, now), f.inKernel, t - now)
      {
        ArmStarts(f, b, now, t);
      }
    }

    /** Turns the running time to the other side without moving any reading;
        returns the side it was on. */
    method FrontiereBloc(now: nat, versNoyau: bool) returns (avant: bool)
      modifies this`comptaUserNs, this`comptaNoyauNs, this`comptaDebutNs, this`comptaEnNoyau
      ensures avant == old(comptaEnNoyau) && comptaEnNoyau == versNoyau
      ensures old(Running(now)) ==>
                forall t :: now <= t && old(Fits(t)) ==> Reads(t) == Plus(old(Reads(now)), versNoyau, t - now)
      ensures B() == Crossed(old(B()), now, versNoyau)
    {
      ghost var f, b := F(), B();
      var debut := comptaDebutNs;
      avant := comptaEnNoyau;
      if debut != 0 {
        var ecoule := SubSat(now, debut);
        if avant {
          comptaNoyauNs := (comptaNoyauNs + ecoule) % (U64_MAX + 1);
        } else {
          comptaUserNs := (comptaUserNs + ecoule) % (U64_MAX + 1);
        }
        comptaDebutNs := now;
      }
      comptaEnNoyau := versNoyau;
      forall t | Runs(f, b, now) && now <= t && Room(f, b, t)
        ensures Reading(F(), B(), t) == Plus(Reading(f, b, now), versNoyau, t - now)
      {
        CrossTurns(f, b, now, versNoyau, t);
      }
    }
  }
}
