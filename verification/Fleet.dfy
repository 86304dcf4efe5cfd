/** The desktop fleet (deploy/desktop-broker/vms.py): a lock-protected slot allocator whose slow
    power-off runs outside the lock, beside boot threads nobody waits for.

    Each region the fleet lock covers is one step; so is each thing a boot thread, a VMM process
    or a power-off does on its own. VMs are named by identity, so a VM that has left the list is
    still there to be watched. */
module Fleet {
  import opened Basics

  datatype Proc = NotStarted | Running | Exited

  /** How far a VM's power-off has come. `Asked`: marked as stopping under the lock.
      `Cutting`: `_power_off` has asked the process whether it is alive. `Done`: `_power_off`
      returned. `Released`: the slot was given back. `Raised`: `_power_off` threw. */
  datatype Off = NotAsked | Asked | Cutting(wasAlive: bool) | Done | Released | Raised

  datatype Vm = Vm(name: string, slot: nat, proc: Proc, ready: bool, failed: bool,
                   stopping: bool, lastUsed: int, off: Off, cuts: nat)
  {
    predicate Alive() { proc.Running? }

    /** The boot thread has not ended and has not started a process: it still may. */
    predicate MaySpawn() { !ready && proc.NotStarted? }
  }

  datatype State<Id(==)> = State(vms: map<string, Id>, table: map<Id, Vm>, maxVms: nat)

  function Set<Id>(s: State<Id>, v: Id, vm: Vm): State<Id> {
    s.(table := s.table[v := vm])
  }

  // ---------------------------------------------------------------------- slots

  function Held<Id>(s: State<Id>): set<nat> {
    set name | name in s.vms && s.vms[name] in s.table :: s.table[s.vms[name]].slot
  }

  /** The first slot at or after `from` that is not held. */
  function FreeFrom(held: set<nat>, from: nat, maxVms: nat): Option<nat>
    decreases maxVms - from
  {
    if from >= maxVms then None
    else if from !in held then Some(from)
    else FreeFrom(held, from + 1, maxVms)
  }

  lemma {:induction false} FreeFromLeast(held: set<nat>, from: nat, maxVms: nat)
    ensures
      match FreeFrom(held, from, maxVms)
      case None => forall k: nat :: from <= k < maxVms ==> k in held
      case Some(slot) =>
        from <= slot < maxVms && slot !in held && forall k: nat :: from <= k < slot ==> k in held
    decreases maxVms - from
  {
    if from < maxVms && from in held {
      FreeFromLeast(held, from + 1, maxVms);
    }
  }

  // ---------------------------------------------------------------------- steps

  predicate Listed<Id>(s: State<Id>, v: Id) {
    v in s.table && s.table[v].name in s.vms && s.vms[s.table[v].name] == v
  }

  function Unlist<Id>(s: State<Id>, v: Id): State<Id>
    requires v in s.table
  {
    var vm := s.table[v];
    if vm.name in s.vms && s.vms[vm.name] == v then s.(vms := s.vms - {vm.name}) else s
  }

  /** The listed VM exited by itself: `ensure` powers it off and releases it under the lock. */
  predicate FoundDead<Id>(s: State<Id>, name: string) {
    && name in s.vms && s.vms[name] in s.table
    && var vm := s.table[s.vms[name]];
       !vm.stopping && !vm.Alive() && vm.ready
  }

  function ReleaseDead<Id>(s: State<Id>, name: string): State<Id>
    requires FoundDead(s, name)
  {
    var v := s.vms[name];
    var vm := s.table[v];
    Unlist(Set(s, v, vm.(stopping := true, off := Released, cuts := vm.cuts + 1)), v)
  }

  function Cleared<Id>(s: State<Id>, name: string): State<Id> {
    if FoundDead(s, name) then ReleaseDead(s, name) else s
  }

  /** `ensure` refuses: the desktop is shutting down, or every slot is held. */
  predicate Refused<Id>(s: State<Id>, name: string) {
    || (name in s.vms && s.vms[name] in s.table && s.table[s.vms[name]].stopping)
    || (var t := Cleared(s, name); name !in t.vms && FreeFrom(Held(t), 0, t.maxVms).None?)
  }

  /** The locked part of `ensure`. `new_` names the VM it makes if it makes one. */
  function Ensure<Id>(s: State<Id>, name: string, new_: Id, now: int): State<Id>
    requires !Refused(s, name)
  {
    var t := Cleared(s, name);
    if name in t.vms then
      if t.vms[name] in t.table
      then Set(t, t.vms[name], t.table[t.vms[name]].(lastUsed := now))
      else t
    else
      var slot := FreeFrom(Held(t), 0, t.maxVms).value;
      t.(vms := t.vms[name := new_],
         table := t.table[new_ := Vm(name, slot, NotStarted, false, false, false, now, NotAsked, 0)])
  }

  datatype Action<Id> =
    | Call(name: string, new_: Id, now: int)  // ensure, under the lock
    | DeadCutRaises(name: string)             // ensure, when powering the dead VM off throws
    | Spawn(v: Id)                            // the boot thread starts the VMM
    | BootEnds(v: Id, failed: bool)           // the boot thread ends and sets `ready`
    | Exits(v: Id)                            // the VMM process exits
    | Mark(v: Id)                             // _discard's first locked region
    | CutBegins(v: Id)                        // _power_off asks whether the VMM is alive
    | CutEnds(v: Id)                          // _power_off returns
    | CutRaises(v: Id)                        // _power_off throws
    | Release(v: Id)                          // _discard's second locked region
    | Touch(v: Id, now: int)                  // a call used the desktop

  predicate Enabled<Id>(s: State<Id>, a: Action<Id>) {
    match a
    case Call(name, new_, _) => !Refused(s, name) && new_ !in s.table
    case DeadCutRaises(name) => FoundDead(s, name)
    case Spawn(v) => v in s.table && s.table[v].MaySpawn()
    case BootEnds(v, failed) =>
      v in s.table && !s.table[v].ready && (s.table[v].proc.NotStarted? ==> failed)
    case Exits(v) => v in s.table && s.table[v].Alive()
    case Mark(v) => v in s.table
    case CutBegins(v) => v in s.table && s.table[v].off.Asked?
    case CutEnds(v) =>
      && v in s.table && s.table[v].off.Cutting?
      && (s.table[v].off.wasAlive ==> !s.table[v].Alive())
    case CutRaises(v) => v in s.table && s.table[v].off.Cutting?
    case Release(v) => v in s.table && s.table[v].off.Done?
    case Touch(v, _) => v in s.table
  }

  function Apply<Id>(s: State<Id>, a: Action<Id>): State<Id>
    requires Enabled(s, a)
  {
    match a
    case Call(name, new_, now) => Ensure(s, name, new_, now)
    case DeadCutRaises(name) =>
      var v := s.vms[name];
      Set(s, v, s.table[v].(stopping := true, off := Raised, cuts := s.table[v].cuts + 1))
    case Spawn(v) => Set(s, v, s.table[v].(proc := Running))
    case BootEnds(v, failed) => Set(s, v, s.table[v].(ready := true, failed := failed))
    case Exits(v) => Set(s, v, s.table[v].(proc := Exited))
    case Mark(v) =>
      if s.table[v].stopping then s else Set(s, v, s.table[v].(stopping := true, off := Asked))
    case CutBegins(v) =>
      Set(s, v, s.table[v].(off := Cutting(s.table[v].Alive()), cuts := s.table[v].cuts + 1))
    case CutEnds(v) => Set(s, v, s.table[v].(off := Done))
    case CutRaises(v) => Set(s, v, s.table[v].(off := Raised))
    case Release(v) => Unlist(Set(s, v, s.table[v].(off := Released)), v)
    case Touch(v, now) => Set(s, v, s.table[v].(lastUsed := now))
  }

  predicate Run<Id>(s: State<Id>, acts: seq<Action<Id>>)
    decreases acts
  {
    acts == [] || (Enabled(s, acts[0]) && Run(Apply(s, acts[0]), acts[1..]))
  }

  function Exec<Id>(s: State<Id>, acts: seq<Action<Id>>): State<Id>
    requires Run(s, acts)
    decreases acts
  {
    if acts == [] then s else Exec(Apply(s, acts[0]), acts[1..])
  }

  // ---------------------------------------------------------------------- the allocator

  /** A VM holds its slot from `ensure` until its power-off has returned and released it. */
  predicate SlotsOk<Id>(s: State<Id>) {
    && (forall name <- s.vms :: s.vms[name] in s.table && s.table[s.vms[name]].name == name)
    && (forall v <- s.table :: Listed(s, v) <==> !s.table[v].off.Released?)
    && (forall v <- s.table :: s.table[v].slot < s.maxVms)
    && (forall v <- s.table, w <- s.table ::
          v != w && s.table[v].slot == s.table[w].slot ==>
            s.table[v].off.Released? || s.table[w].off.Released?)
  }

  predicate PhasesOk<Id>(s: State<Id>) {
    forall v <- s.table ::
      && (s.table[v].stopping <==> !s.table[v].off.NotAsked?)
      && s.table[v].cuts == (if s.table[v].off.NotAsked? || s.table[v].off.Asked? then 0 else 1)
  }

  predicate Valid<Id>(s: State<Id>) {
    SlotsOk(s) && PhasesOk(s)
  }

  lemma ValidSet<Id>(s: State<Id>, v: Id, vm: Vm)
    requires Valid(s) && v in s.table
    requires vm.name == s.table[v].name && vm.slot == s.table[v].slot
    requires vm.off.Released? <==> s.table[v].off.Released?
    requires vm.stopping <==> !vm.off.NotAsked?
    requires vm.cuts == (if vm.off.NotAsked? || vm.off.Asked? then 0 else 1)
    ensures Valid(Set(s, v, vm))
  {
    var t := Set(s, v, vm);
    forall w | w in t.table ensures Listed(t, w) <==> Listed(s, w) {
    }
  }

  lemma ValidUnlist<Id>(s: State<Id>, v: Id, vm: Vm)
    requires Valid(s) && v in s.table && !s.table[v].off.Released?
    requires vm.name == s.table[v].name && vm.slot == s.table[v].slot
    requires vm.off.Released? && vm.stopping && vm.cuts == 1
    ensures Valid(Unlist(Set(s, v, vm), v))
    ensures vm.name !in Unlist(Set(s, v, vm), v).vms
  {
    var t := Unlist(Set(s, v, vm), v);
    assert Listed(s, v);
    forall w | w in t.table ensures Listed(t, w) <==> !t.table[w].off.Released? {
      assert Listed(s, w) <==> !s.table[w].off.Released?;
    }
  }

  /** A slot `ensure` hands out is held by no listed VM: whoever had it is powered off and released. */
  lemma FreshSlot<Id>(s: State<Id>)
    requires Valid(s) && FreeFrom(Held(s), 0, s.maxVms).Some?
    ensures
      var slot := FreeFrom(Held(s), 0, s.maxVms).value;
      slot < s.maxVms && forall v <- s.table :: s.table[v].slot == slot ==> s.table[v].off.Released?
  {
    FreeFromLeast(Held(s), 0, s.maxVms);
    var slot := FreeFrom(Held(s), 0, s.maxVms).value;
    forall v | v in s.table && !s.table[v].off.Released? ensures s.table[v].slot in Held(s) {
      assert Listed(s, v);
    }
  }

  lemma ValidCleared<Id>(s: State<Id>, name: string)
    requires Valid(s)
    ensures Valid(Cleared(s, name)) && (FoundDead(s, name) ==> name !in Cleared(s, name).vms)
    ensures Cleared(s, name).table.Keys == s.table.Keys && Cleared(s, name).maxVms == s.maxVms
  {
    if FoundDead(s, name) {
      var v := s.vms[name];
      var vm := s.table[v];
      assert Listed(s, v);
      ValidUnlist(s, v, vm.(stopping := true, off := Released, cuts := vm.cuts + 1));
    }
  }

  lemma ValidEnsure<Id>(s: State<Id>, name: string, new_: Id, now: int)
    requires Valid(s) && !Refused(s, name)
    requires name in Cleared(s, name).vms || new_ !in s.table
    ensures Valid(Ensure(s, name, new_, now))
  {
    ValidCleared(s, name);
    var t := Cleared(s, name);
    if name in t.vms {
      ValidSet(t, t.vms[name], t.table[t.vms[name]].(lastUsed := now));
    } else {
      FreshSlot(t);
      var slot := FreeFrom(Held(t), 0, t.maxVms).value;
      ValidAdd(t, new_, Vm(name, slot, NotStarted, false, false, false, now, NotAsked, 0));
    }
  }

  /** A listed VM keeps its slot for itself: with one fewer listed there is room. */
  lemma ClearedHasRoom<Id>(s: State<Id>, name: string)
    requires Valid(s) && FoundDead(s, name)
    ensures FreeFrom(Held(Cleared(s, name)), 0, s.maxVms).Some?
  {
    ValidCleared(s, name);
    var t := Cleared(s, name);
    var slot := s.table[s.vms[name]].slot;
    assert Listed(s, s.vms[name]);
    FreeFromLeast(Held(t), 0, s.maxVms);
    forall other | other in t.vms && t.vms[other] in t.table ensures t.table[t.vms[other]].slot != slot {
      assert Listed(s, t.vms[other]);
    }
    assert slot !in Held(t) && slot < s.maxVms;
  }

  ghost predicate TakenBySomeone<Id>(s: State<Id>, slot: nat) {
    exists v <- s.table :: Listed(s, v) && s.table[v].slot == slot
  }

  /** `ensure` refuses exactly a desktop that is shutting down, and one that is not listed while every slot
      is some listed VM's. */
  lemma RefusedIff<Id>(s: State<Id>, name: string)
    requires Valid(s)
    ensures Refused(s, name) <==>
              if name in s.vms then s.table[s.vms[name]].stopping
              else forall k: nat | k < s.maxVms :: TakenBySomeone(s, k)
  {
    if FoundDead(s, name) {
      ClearedHasRoom(s, name);
      ValidCleared(s, name);
    } else if name !in s.vms {
      FreeFromLeast(Held(s), 0, s.maxVms);
      forall k: nat ensures k in Held(s) <==> TakenBySomeone(s, k) {
        if k in Held(s) {
          var other :| other in s.vms && s.vms[other] in s.table && s.table[s.vms[other]].slot == k;
          assert Listed(s, s.vms[other]);
        }
      }
    }
  }

  /** And what it gives is not shutting down, was used just now, and runs or is still booting: the VM that
      was listed, unless that one had exited by itself, or a new one. Nobody else's is touched. */
  lemma EnsureGives<Id>(s: State<Id>, name: string, new_: Id, now: int)
    requires Valid(s) && !Refused(s, name) && new_ !in s.table
    ensures
      var t := Ensure(s, name, new_, now);
      && name in t.vms && t.vms[name] in t.table
      && var vm := t.table[t.vms[name]];
      && !vm.stopping && vm.lastUsed == now && (vm.Alive() || !vm.ready)
      && (name in s.vms && (s.table[s.vms[name]].Alive() || !s.table[s.vms[name]].ready) ==>
            t.vms == s.vms && vm == s.table[s.vms[name]].(lastUsed := now))
      && (name !in s.vms || (!s.table[s.vms[name]].Alive() && s.table[s.vms[name]].ready) ==>
            t.vms[name] == new_ && vm.proc.NotStarted? && !vm.ready)
      && forall v <- s.table :: v != new_ && (name in s.vms ==> v != s.vms[name]) ==> t.table[v] == s.table[v]
  {
    ValidCleared(s, name);
    if FoundDead(s, name) { ClearedHasRoom(s, name); }
    if name in s.vms { assert Listed(s, s.vms[name]); }
  }

  lemma ValidAdd<Id>(t: State<Id>, new_: Id, vm: Vm)
    requires Valid(t) && vm.name !in t.vms && new_ !in t.table
    requires vm.slot < t.maxVms && forall v <- t.table :: t.table[v].slot == vm.slot ==> t.table[v].off.Released?
    requires vm.off.NotAsked? && !vm.stopping && vm.cuts == 0
    ensures Valid(t.(vms := t.vms[vm.name := new_], table := t.table[new_ := vm]))
  {
    var u := t.(vms := t.vms[vm.name := new_], table := t.table[new_ := vm]);
    forall w | w in u.table ensures Listed(u, w) <==> !u.table[w].off.Released? {
      if w != new_ { assert Listed(t, w) <==> !t.table[w].off.Released?; }
    }
    forall v, w | v in u.table && w in u.table && v != w && u.table[v].slot == u.table[w].slot
      ensures u.table[v].off.Released? || u.table[w].off.Released?
    {
      assert v == new_ ==> t.table[w].slot == vm.slot;
      assert w == new_ ==> t.table[v].slot == vm.slot;
    }
  }

  lemma ValidStep<Id>(s: State<Id>, a: Action<Id>)
    requires Valid(s) && Enabled(s, a)
    ensures Valid(Apply(s, a))
  {
    match a
    case Call(name, new_, now) => ValidEnsure(s, name, new_, now);
    case DeadCutRaises(name) =>
      assert Listed(s, s.vms[name]);
      ValidSet(s, s.vms[name], Apply(s, a).table[s.vms[name]]);
    case Release(v) => ValidUnlist(s, v, s.table[v].(off := Released));
    case Mark(v) => if !s.table[v].stopping { ValidSet(s, v, Apply(s, a).table[v]); }
    case _ => ValidSet(s, a.v, Apply(s, a).table[a.v]);
  }

  lemma {:induction false} ValidRun<Id>(s: State<Id>, acts: seq<Action<Id>>)
    requires Valid(s) && Run(s, acts)
    ensures Valid(Exec(s, acts))
    decreases acts
  {
    if acts != [] {
      ValidStep(s, acts[0]);
      ValidRun(Apply(s, acts[0]), acts[1..]);
    }
  }

  /** Under any interleaving of calls, boots, timeouts, stops, reaping and power-offs, whether or
      not a power-off throws: listed VMs have distinct slots below the limit, a name has at most
      one, and every VM is powered off at most once. */
  lemma AllocatorSafe<Id>(maxVms: nat, acts: seq<Action<Id>>)
    requires Run(State(map[], map[], maxVms), acts)
    ensures
      var s := Exec(State(map[], map[], maxVms), acts);
      && (forall v <- s.table, w <- s.table :: v != w && Listed(s, v) && Listed(s, w) ==>
            s.table[v].slot != s.table[w].slot && s.table[v].name != s.table[w].name)
      && (forall v <- s.table :: s.table[v].slot < maxVms && s.table[v].cuts <= 1)
  {
    var s0: State<Id> := State(map[], map[], maxVms);
    ValidRun(s0, acts);
    var s := Exec(s0, acts);
    MaxVmsFixed(s0, acts);
  }

  lemma {:induction false} MaxVmsFixed<Id>(s: State<Id>, acts: seq<Action<Id>>)
    requires Run(s, acts)
    ensures Exec(s, acts).maxVms == s.maxVms
    decreases acts
  {
    if acts != [] { MaxVmsFixed(Apply(s, acts[0]), acts[1..]); }
  }

  /** A slot is given out again only after the power-off of everyone who had it has returned. */
  lemma ReassignedAfterPowerOff<Id>(s: State<Id>, name: string, new_: Id, now: int)
    requires Valid(s) && Enabled(s, Call(name, new_, now))
    requires new_ in Ensure(s, name, new_, now).table
    ensures
      var t := Ensure(s, name, new_, now);
      forall v <- s.table :: s.table[v].slot == t.table[new_].slot ==>
        t.table[v].off.Released? && t.table[v].cuts == 1
  {
    ValidCleared(s, name);
    ValidEnsure(s, name, new_, now);
    var u := Cleared(s, name);
    if name !in u.vms { FreshSlot(u); }
    var t := Ensure(s, name, new_, now);
    forall v | v in s.table && s.table[v].slot == t.table[new_].slot
      ensures t.table[v].off.Released? && t.table[v].cuts == 1
    {
      assert u.table[v].slot == s.table[v].slot;
    }
  }

  lemma RaisedStep<Id>(s: State<Id>, v: Id, a: Action<Id>)
    requires Valid(s) && v in s.table && s.table[v].off.Raised? && Enabled(s, a)
    ensures
      var t := Apply(s, a);
      && v in t.table && t.table[v].off.Raised?
      && t.table[v].slot == s.table[v].slot && t.table[v].name == s.table[v].name
  {
    if a.Call? {
      assert v in Cleared(s, a.name).table && Cleared(s, a.name).table[v] == s.table[v];
    }
  }

  /** A power-off that throws keeps its VM listed as stopping for good: the slot never comes back
      and the name is refused from then on. */
  lemma {:induction false} RaisedIsForever<Id>(s: State<Id>, v: Id, acts: seq<Action<Id>>)
    requires Valid(s) && v in s.table && s.table[v].off.Raised? && Run(s, acts)
    ensures
      var t := Exec(s, acts);
      && v in t.table && t.table[v].off.Raised? && t.table[v].slot == s.table[v].slot
      && Listed(t, v) && Refused(t, s.table[v].name)
    decreases acts
  {
    if acts == [] {
      assert Listed(s, v);
    } else {
      ValidStep(s, acts[0]);
      RaisedStep(s, v, acts[0]);
      RaisedIsForever(Apply(s, acts[0]), v, acts[1..]);
    }
  }

  /** How many steps a VM is from giving its slot back, if nothing throws. */
  function StepsLeft(vm: Vm): nat {
    match vm.off
    case NotAsked => 5
    case Asked => 4
    case Cutting(wasAlive) => if wasAlive && vm.Alive() then 3 else 2
    case Done => 1
    case _ => 0
  }

  function Towards<Id>(s: State<Id>, v: Id): Action<Id>
    requires v in s.table && StepsLeft(s.table[v]) > 0
  {
    match s.table[v].off
    case NotAsked => Mark(v)
    case Asked => CutBegins(v)
    case Cutting(wasAlive) => if wasAlive && s.table[v].Alive() then Exits(v) else CutEnds(v)
    case _ => Release(v)
  }

  lemma TowardsStep<Id>(s: State<Id>, v: Id)
    requires Valid(s) && v in s.table && StepsLeft(s.table[v]) > 0
    ensures
      var a := Towards(s, v);
      && Enabled(s, a) && v in Apply(s, a).table && !Apply(s, a).table[v].off.Raised?
      && StepsLeft(Apply(s, a).table[v]) < StepsLeft(s.table[v])
  {
  }

  /** A VM whose power-off has not thrown can still give its slot back. */
  lemma {:induction false} ComesBack<Id>(s: State<Id>, v: Id) returns (acts: seq<Action<Id>>)
    requires Valid(s) && v in s.table && !s.table[v].off.Raised?
    ensures Run(s, acts) && v in Exec(s, acts).table && Exec(s, acts).table[v].off.Released?
    decreases StepsLeft(s.table[v])
  {
    acts := [];
    if StepsLeft(s.table[v]) > 0 {
      var a := Towards(s, v);
      TowardsStep(s, v);
      ValidStep(s, a);
      var rest := ComesBack(Apply(s, a), v);
      acts := [a] + rest;
      assert acts[1..] == rest;
    }
  }

  /** A slot can come back exactly while the power-off of the VM that has it has not thrown. */
  lemma ComesBackIff<Id(!new)>(s: State<Id>, v: Id)
    requires Valid(s) && v in s.table
    ensures (exists acts :: Run(s, acts) && v in Exec(s, acts).table && Exec(s, acts).table[v].off.Released?)
            <==> !s.table[v].off.Raised?
  {
    if s.table[v].off.Raised? {
      forall acts | Run(s, acts) ensures v in Exec(s, acts).table && Exec(s, acts).table[v].off.Raised? {
        RaisedIsForever(s, v, acts);
      }
    } else {
      var acts := ComesBack(s, v);
    }
  }

  // ---------------------------------------------------------------------- live VMMs

  /** Every running VMM belongs to a listed VM. */
  predicate NoOrphan<Id>(s: State<Id>) {
    forall v <- s.table :: s.table[v].Alive() ==> Listed(s, v)
  }

  predicate OnePerTap<Id>(s: State<Id>) {
    forall v <- s.table, w <- s.table ::
      v != w && s.table[v].Alive() && s.table[w].Alive() ==> s.table[v].slot != s.table[w].slot
  }

  lemma NoOrphanOnePerTap<Id>(s: State<Id>)
    requires Valid(s) && NoOrphan(s)
    ensures OnePerTap(s)
  {
    forall v, w | v in s.table && w in s.table && v != w && s.table[v].Alive() && s.table[w].Alive()
      ensures s.table[v].slot != s.table[w].slot
    {
      assert Listed(s, v) && Listed(s, w);
    }
  }

  /** No power-off looks at a VM whose boot thread may still start a process. Nothing enforces
      this: `stop` and the boot timeout discard a VM whatever its boot thread is doing. */
  predicate Patient<Id>(s: State<Id>, a: Action<Id>) {
    Enabled(s, a) && (a.CutBegins? ==> !s.table[a.v].MaySpawn())
  }

  predicate PatientRun<Id>(s: State<Id>, acts: seq<Action<Id>>)
    ensures PatientRun(s, acts) ==> Run(s, acts)
    decreases acts
  {
    acts == [] || (Patient(s, acts[0]) && PatientRun(Apply(s, acts[0]), acts[1..]))
  }

  /** Past the point where `_power_off` looked, nothing can start the VMM behind its back. */
  predicate SettledVm(vm: Vm) {
    && (vm.off.Cutting? || vm.off.Done? || vm.off.Released? ==> !vm.MaySpawn())
    && (vm.off.Cutting? && !vm.off.wasAlive ==> !vm.Alive())
    && (vm.off.Done? || vm.off.Released? ==> !vm.Alive())
  }

  predicate Settled<Id>(s: State<Id>) {
    forall v <- s.table :: SettledVm(s.table[v])
  }

  lemma SettledStep<Id>(s: State<Id>, a: Action<Id>)
    requires Valid(s) && Settled(s) && Patient(s, a)
    ensures Settled(Apply(s, a))
  {
    match a
    case Call(name, new_, now) =>
      var t := Cleared(s, name);
      assert Settled(t);
      assert forall v <- Ensure(s, name, new_, now).table :: v != new_ ==> v in t.table;
    case DeadCutRaises(name) => assert SettledVm(Apply(s, a).table[s.vms[name]]);
    case _ => assert SettledVm(Apply(s, a).table[a.v]);
  }

  lemma SettledNoOrphan<Id>(s: State<Id>)
    requires Valid(s) && Settled(s)
    ensures NoOrphan(s) && OnePerTap(s)
  {
    NoOrphanOnePerTap(s);
  }

  lemma {:induction false} SettledRun<Id>(s: State<Id>, acts: seq<Action<Id>>)
    requires Valid(s) && Settled(s) && PatientRun(s, acts)
    ensures Valid(Exec(s, acts)) && Settled(Exec(s, acts))
    decreases acts
  {
    if acts != [] {
      ValidStep(s, acts[0]);
      SettledStep(s, acts[0]);
      SettledRun(Apply(s, acts[0]), acts[1..]);
    }
  }

  /** With power-offs that wait for the boot thread, every running VMM is a listed desktop's and
      no two share a tap. */
  lemma OneVmmPerTap<Id>(maxVms: nat, acts: seq<Action<Id>>)
    requires PatientRun(State(map[], map[], maxVms), acts)
    ensures
      var s := Exec(State(map[], map[], maxVms), acts);
      NoOrphan(s) && OnePerTap(s)
  {
    SettledRun(State(map[], map[], maxVms), acts);
    SettledNoOrphan(Exec(State(map[], map[], maxVms), acts));
  }

  lemma EarlyCutOrphans<Id>(s: State<Id>, v: Id)
    requires Valid(s) && Enabled(s, CutBegins(v)) && s.table[v].MaySpawn()
    ensures
      var acts := [CutEnds(v), Release(v), Spawn(v)];
      var t := Apply(s, CutBegins(v));
      PatientRun(t, acts) && !NoOrphan(Exec(t, acts))
  {
    var t := Apply(s, CutBegins(v));
    var t1 := Apply(t, CutEnds(v));
    var t2 := Apply(t1, Release(v));
    var t3 := Apply(t2, Spawn(v));
    var acts := [CutEnds(v), Release(v), Spawn(v)];
    assert acts[1..] == [Release(v), Spawn(v)];
    assert acts[1..][1..] == [Spawn(v)];
    assert acts[1..][1..][1..] == [];
    assert PatientRun(t2, acts[1..][1..]) && Exec(t2, acts[1..][1..]) == t3;
    assert PatientRun(t1, acts[1..]) && Exec(t1, acts[1..]) == t3;
    assert Exec(t, acts) == t3;
    assert t3.table[v].Alive() && !Listed(t3, v);
  }

  /** Powering a VM off is safe exactly when its boot thread has started the VMM or has ended. */
  lemma CutSafeIff<Id>(s: State<Id>, v: Id)
    requires Valid(s) && Settled(s) && Enabled(s, CutBegins(v))
    ensures !s.table[v].MaySpawn() <==>
            forall acts :: PatientRun(Apply(s, CutBegins(v)), acts) ==>
              NoOrphan(Exec(Apply(s, CutBegins(v)), acts))
  {
    if s.table[v].MaySpawn() {
      EarlyCutOrphans(s, v);
    } else {
      var t := Apply(s, CutBegins(v));
      ValidStep(s, CutBegins(v));
      SettledStep(s, CutBegins(v));
      forall acts | PatientRun(t, acts) ensures NoOrphan(Exec(t, acts)) {
        SettledRun(t, acts);
        SettledNoOrphan(Exec(t, acts));
      }
    }
  }

  /** `acts` leads through `states`, one by one. */
  ghost predicate Linked<Id>(states: seq<State<Id>>, acts: seq<Action<Id>>) {
    && |states| == |acts| + 1
    && forall i :: 0 <= i < |acts| ==> Enabled(states[i], acts[i]) && states[i + 1] == Apply(states[i], acts[i])
  }

  lemma {:induction false} LinkedRun<Id>(states: seq<State<Id>>, acts: seq<Action<Id>>)
    requires Linked(states, acts)
    ensures Run(states[0], acts) && Exec(states[0], acts) == states[|acts|]
    decreases acts
  {
    if acts != [] {
      assert Linked(states[1..], acts[1..]) by {
        forall i | 0 <= i < |acts| - 1
          ensures Enabled(states[1..][i], acts[1..][i])
          ensures states[1..][i + 1] == Apply(states[1..][i], acts[1..][i])
        {
          assert states[1..][i] == states[i + 1] && acts[1..][i] == acts[i + 1];
        }
      }
      LinkedRun(states[1..], acts[1..]);
    }
  }

  lemma LinkedConcat<Id>(before: seq<State<Id>>, acts: seq<Action<Id>>,
                         after: seq<State<Id>>, more: seq<Action<Id>>)
    requires Linked(before, acts) && Linked(after, more) && before[|acts|] == after[0]
    ensures Linked(before + after[1..], acts + more)
  {
    var states := before + after[1..];
    forall i | 0 <= i < |acts + more|
      ensures Enabled(states[i], (acts + more)[i])
      ensures states[i + 1] == Apply(states[i], (acts + more)[i])
    {
      if i >= |acts| {
        assert states[i] == after[i - |acts|] && states[i + 1] == after[i + 1 - |acts|];
      }
    }
  }

  const BOOTING: Vm := Vm("a", 0, NotStarted, false, false, false, 0, NotAsked, 0)
  const STOPPED_EARLY: Vm := Vm("a", 0, NotStarted, false, false, true, 0, Released, 1)
  const SUCCESSOR: Vm := Vm("b", 0, NotStarted, false, false, false, 1, NotAsked, 0)

  lemma StopDuringBoot(states: seq<State<nat>>)
    requires |states| == 6 && states[0] == State(map[], map[], 1)
    requires states[1] == State(map["a" := 0], map[0 := BOOTING], 1)
    requires states[2] == State(map["a" := 0], map[0 := BOOTING.(stopping := true, off := Asked)], 1)
    requires states[3] == State(map["a" := 0], map[0 := STOPPED_EARLY.(off := Cutting(false))], 1)
    requires states[4] == State(map["a" := 0], map[0 := STOPPED_EARLY.(off := Done)], 1)
    requires states[5] == State(map[], map[0 := STOPPED_EARLY], 1)
    ensures Linked(states, [Call("a", 0, 0), Mark(0), CutBegins(0), CutEnds(0), Release(0)])
  {
    StopBegins(states[0], states[1], states[2]);
    StopEnds(states[2], states[3], states[4], states[5]);
  }

  predicate StepTo(s: State<nat>, a: Action<nat>, t: State<nat>) {
    Enabled(s, a) && t == Apply(s, a)
  }

  lemma StopBegins(s: State<nat>, t: State<nat>, u: State<nat>)
    requires s == State(map[], map[], 1) && t == State(map["a" := 0], map[0 := BOOTING], 1)
    requires u == State(map["a" := 0], map[0 := BOOTING.(stopping := true, off := Asked)], 1)
    ensures StepTo(s, Call("a", 0, 0), t) && StepTo(t, Mark(0), u)
  {
    assert Held(s) == {};
  }

  lemma StopEnds(s: State<nat>, t: State<nat>, u: State<nat>, v: State<nat>)
    requires s == State(map["a" := 0], map[0 := BOOTING.(stopping := true, off := Asked)], 1)
    requires t == State(map["a" := 0], map[0 := STOPPED_EARLY.(off := Cutting(false))], 1)
    requires u == State(map["a" := 0], map[0 := STOPPED_EARLY.(off := Done)], 1)
    requires v == State(map[], map[0 := STOPPED_EARLY], 1)
    ensures StepTo(s, CutBegins(0), t) && StepTo(t, CutEnds(0), u) && StepTo(u, Release(0), v)
  {
  }

  lemma BootOfTheSuccessor(states: seq<State<nat>>)
    requires states == [
      State(map[], map[0 := STOPPED_EARLY], 1),
      State(map["b" := 1], map[0 := STOPPED_EARLY, 1 := SUCCESSOR], 1),
      State(map["b" := 1], map[0 := STOPPED_EARLY.(proc := Running), 1 := SUCCESSOR], 1),
      State(map["b" := 1], map[0 := STOPPED_EARLY.(proc := Running),
                               1 := SUCCESSOR.(proc := Running)], 1)]
    ensures Linked(states, [Call("b", 1, 1), Spawn(0), Spawn(1)]) && !OnePerTap(states[3])
  {
    assert Held(states[0]) == {};
    assert states[3].table[0].Alive() && states[3].table[1].Alive();
  }

  /** `stop` while its VM boots, then a call for another desktop: two VMMs on tap 0. */
  lemma TwoVmmsOnOneTap()
    ensures exists acts: seq<Action<nat>> ::
              Run(State(map[], map[], 1), acts) && !OnePerTap(Exec(State(map[], map[], 1), acts))
  {
    var first: seq<State<nat>> := [
      State(map[], map[], 1),
      State(map["a" := 0], map[0 := BOOTING], 1),
      State(map["a" := 0], map[0 := BOOTING.(stopping := true, off := Asked)], 1),
      State(map["a" := 0], map[0 := STOPPED_EARLY.(off := Cutting(false))], 1),
      State(map["a" := 0], map[0 := STOPPED_EARLY.(off := Done)], 1),
      State(map[], map[0 := STOPPED_EARLY], 1)];
    var second: seq<State<nat>> := [
      State(map[], map[0 := STOPPED_EARLY], 1),
      State(map["b" := 1], map[0 := STOPPED_EARLY, 1 := SUCCESSOR], 1),
      State(map["b" := 1], map[0 := STOPPED_EARLY.(proc := Running), 1 := SUCCESSOR], 1),
      State(map["b" := 1], map[0 := STOPPED_EARLY.(proc := Running),
                               1 := SUCCESSOR.(proc := Running)], 1)];
    StopDuringBoot(first);
    BootOfTheSuccessor(second);
    var acts := [Call("a", 0, 0), Mark(0), CutBegins(0), CutEnds(0), Release(0)];
    var more := [Call("b", 1, 1), Spawn(0), Spawn(1)];
    LinkedConcat(first, acts, second, more);
    LinkedRun(first + second[1..], acts + more);
  }

  // ---------------------------------------------------------------------- addresses

  /** The last octets of a slot's /30: the guest behind the gateway. */
  function SlotNet(slot: nat): (nat, nat) {
    (4 * slot + 2, 4 * slot + 1)
  }

  /** No two slots share a /30, and the addresses are addresses exactly up to 64 slots: the
      configured number of slots is not bounded. */
  lemma SlotNetsDisjoint(maxVms: nat)
    ensures forall a: nat, b: nat :: SlotNet(a).0 / 4 == SlotNet(b).1 / 4 <==> a == b
    ensures (forall slot: nat | slot < maxVms :: SlotNet(slot).0 < 255) <==> maxVms <= 64
    // slot 0 is .2 behind .1; every guest is the second host of its /30 and its gateway the first
    ensures SlotNet(0) == (2, 1)
    ensures forall slot: nat ::
              var (guest, gateway) := SlotNet(slot);
              gateway % 4 == 1 && guest == gateway + 1 && gateway < SlotNet(slot + 1).1 == gateway + 4
  {
    forall a: nat, b: nat ensures SlotNet(a).0 / 4 == SlotNet(b).1 / 4 <==> a == b {
      assert SlotNet(a).0 / 4 == a && SlotNet(b).1 / 4 == b;
    }
    if maxVms > 64 {
      assert SlotNet(64).0 == 258;
    }
  }
}

/** The fleet as the broker holds it: VM objects in a dictionary, one method per locked region and
    per step of a boot or a power-off. */
module FleetBroker {
  import opened Basics
  import T = Fleet

  class VM {
    const name: string
    const slot: nat
    var proc: T.Proc
    var ready: bool
    var failed: bool
    var stopping: bool
    var lastUsed: int
    ghost var off: T.Off
    ghost var cuts: nat

    constructor (name: string, slot: nat, now: int)
      ensures Record() == T.Vm(name, slot, T.NotStarted, false, false, false, now, T.NotAsked, 0)
    {
      this.name, this.slot, lastUsed := name, slot, now;
      proc, ready, failed, stopping, off, cuts := T.NotStarted, false, false, false, T.NotAsked, 0;
    }

    ghost function Record(): T.Vm
      reads this
    {
      T.Vm(name, slot, proc, ready, failed, stopping, lastUsed, off, cuts)
    }

    predicate Alive()
      reads this
    {
      proc.Running?
    }
  }

  class Broker {
    const maxVms: nat
    var vms: map<string, VM>
    ghost var made: set<VM>   // every VM there has been

    ghost function State(): T.State<VM>
      reads this, made
    {
      T.State(vms, map v | v in made :: v.Record(), maxVms)
    }

    ghost predicate Valid()
      reads this, made
    {
      T.Valid(State())
    }

    constructor (maxVms: nat)
      ensures State() == T.State(map[], map[], maxVms) && Valid() && made == {}
    {
      this.maxVms := maxVms;
      vms, made := map[], {};
    }

    method FreeSlot() returns (slot: Option<nat>)
      requires Valid()
      ensures slot == T.FreeFrom(T.Held(State()), 0, maxVms)
    {
      assert forall name <- vms :: vms[name] in State().table;
      var held := set name | name in vms :: vms[name].slot;
      assert held == T.Held(State());
      for i := 0 to maxVms
        invariant T.FreeFrom(held, 0, maxVms) == T.FreeFrom(held, i, maxVms)
      {
        if i !in held { return Some(i); }
      }
      return None;
    }

    /** Caller holds the lock. */
    method Unlist(v: VM)
      requires v in made
      modifies this`vms
      ensures State() == T.Unlist(old(State()), v)
    {
      if v.name in vms && vms[v.name] == v { vms := vms - {v.name}; }
    }

    method ReleaseDead(dead: VM)
      requires dead in made
      modifies this`vms, dead
      ensures
        var s, vm := old(State()), old(dead.Record());
        State() == T.Unlist(T.Set(s, dead, vm.(stopping := true, off := T.Released, cuts := vm.cuts + 1)), dead)
    {
      ghost var s := State();
      dead.stopping, dead.off, dead.cuts := true, T.Released, dead.cuts + 1;
      assert State() == T.Set(s, dead, dead.Record());
      Unlist(dead);
    }

    /** The first half of `ensure`: a listed VM that exited by itself is powered off here. */
    method ClearDead(name: string)
      requires Valid()
      modifies this`vms, made
      ensures State() == T.Cleared(old(State()), name)
    {
      ghost var s := State();
      if name in vms {
        assert vms[name] in s.table;
        if !vms[name].stopping && !vms[name].Alive() && vms[name].ready {
          assert T.FoundDead(s, name);
          ReleaseDead(vms[name]);
        }
      }
    }

    method Touch(v: VM, now: int)
      requires v in made
      modifies v`lastUsed
      ensures State() == T.Apply(old(State()), T.Touch(v, now))
    {
      v.lastUsed := now;
      assert State() == T.Set(old(State()), v, v.Record());
    }

    /** List a new VM and start its boot thread. */
    method Launch(name: string, slot: nat, now: int) returns (vm: VM)
      modifies this
      ensures fresh(vm)
      ensures
        var s := old(State());
        State() == s.(vms := s.vms[name := vm],
                      table := s.table[vm := T.Vm(name, slot, T.NotStarted, false, false, false, now, T.NotAsked, 0)])
    {
      ghost var s := State();
      vm := new VM(name, slot, now);
      vms := vms[name := vm];
      made := made + {vm};
      assert State().table == s.table[vm := vm.Record()];
    }

    /** `ensure` once no dead VM is in the way: the VM `name` has, or a new one. */
    method Provide(name: string, now: int) returns (r: Option<VM>)
      requires Valid() && !T.FoundDead(State(), name)
      modifies this, made
      ensures r.None? ==> State() == old(State())
      ensures r.None? <==> name !in old(vms) && T.FreeFrom(T.Held(old(State())), 0, maxVms).None?
      ensures r.Some? ==> (name in old(vms) && r.value == old(vms)[name]) || r.value !in old(made)
      ensures r.Some? && !old(T.Refused(State(), name)) ==>
                State() == T.Ensure(old(State()), name, r.value, now)
    {
      if name in vms {
        assert vms[name] in State().table;
        Touch(vms[name], now);
        return Some(vms[name]);
      }
      var slot := FreeSlot();
      if slot.None? { return None; }
      var vm := Launch(name, slot.value, now);
      return Some(vm);
    }

    /** The locked part of `ensure`; None is BusyError. */
    method Ensure(name: string, now: int) returns (r: Option<VM>)
      requires Valid()
      modifies this, made
      ensures Valid()
      ensures r.None? <==> old(T.Refused(State(), name))
      ensures r.None? ==> State() == old(State())
      ensures r.Some? ==> State() == T.Ensure(old(State()), name, r.value, now)
    {
      ghost var s := State();
      if name in vms {
        assert vms[name] in s.table;
        if vms[name].stopping { return None; }
      }
      T.ValidCleared(s, name);
      ClearDead(name);
      if T.FoundDead(s, name) { T.ClearedHasRoom(s, name); }
      r := Provide(name, now);
      if r.Some? { T.ValidEnsure(s, name, r.value, now); }
    }

    method BootSpawns(v: VM)
      requires v in made && T.Enabled(State(), T.Spawn(v))
      modifies v`proc
      ensures State() == T.Apply(old(State()), T.Spawn(v))
    {
      v.proc := T.Running;
    }

    method BootEnds(v: VM, failed: bool)
      requires v in made && T.Enabled(State(), T.BootEnds(v, failed))
      modifies v`failed, v`ready
      ensures State() == T.Apply(old(State()), T.BootEnds(v, failed))
    {
      v.failed := failed;
      v.ready := true;
    }

    /** `_discard`, first locked region: whether this caller is the one to power the VM off. */
    method Mark(v: VM) returns (mine: bool)
      requires v in made
      modifies v
      ensures mine == !old(v.stopping)
      ensures State() == T.Apply(old(State()), T.Mark(v))
    {
      if v.stopping {
        return false;
      }
      v.stopping := true;
      v.off := T.Asked;
      return true;
    }

    /** `_power_off` begins: whether there is a process to wait for. */
    method CutBegins(v: VM) returns (wait: bool)
      requires v in made && T.Enabled(State(), T.CutBegins(v))
      modifies v
      ensures wait == old(v.Alive()) && State() == T.Apply(old(State()), T.CutBegins(v))
    {
      wait := v.Alive();
      v.off := T.Cutting(wait);
      v.cuts := v.cuts + 1;
      assert State() == T.Set(old(State()), v, v.Record());
    }

    /** `_discard`, second locked region. */
    method Release(v: VM)
      requires v in made && T.Enabled(State(), T.Release(v)) && Valid()
      modifies this`vms, v
      ensures State() == T.Apply(old(State()), T.Release(v)) && Valid()
      ensures v.name !in vms
    {
      ghost var s := State();
      v.off := T.Released;
      assert State() == T.Set(s, v, v.Record());
      Unlist(v);
      T.ValidUnlist(s, v, v.Record());
    }

    /** The desktops `reap` will discard: idle past the limit, up, not stopping and not in a call. */
    method Idle(now: int, limit: int, busy: set<VM>) returns (idle: set<VM>)
      requires Valid()
      ensures idle == set name | name in vms && vms[name].ready && !vms[name].stopping
                                 && now - vms[name].lastUsed > limit && vms[name] !in busy
                      :: vms[name]
      ensures forall v <- idle :: v in made && !State().table[v].MaySpawn()
    {
      idle := set name | name in vms && vms[name].ready && !vms[name].stopping
                         && now - vms[name].lastUsed > limit && vms[name] !in busy
              :: vms[name];
      forall v | v in idle ensures v in made && !State().table[v].MaySpawn() {
        var name :| name in vms && vms[name] == v && v.ready;
        assert vms[name] in State().table;
      }
    }
  }
}
