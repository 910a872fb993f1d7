// The relay's pairing slots: offers, takers, janitor and clean-up, interleaved in any order.

module Broker {
  import opened Bytes

  const MAX_SLOTS: nat := 4096

  /** Who took a slot out of the table. */
  datatype Exit = Here | ByTaker(taker: nat) | ByJanitor | ByOfferer

  /** The handler of an offer: parked on the wake channel, paired, told the slot expired, or on its way
      out after its timer or a lost reply; then gone. */
  datatype Handler = Parked | Paired(taker: nat) | Told | GivenUp | Left

  /** The handler of a taker, which looks for a slot once: it found none, or took slot k out of the table,
      and then put its connection on the channel, found no room there, or lost its connection first. */
  datatype Taker = Missed | Took(k: nat) | Sent(k: nat) | Refused(k: nat) | Dropped(k: nat)

  /** `wake` is what waits on the wake channel, which holds one; `sends`, `closes` and `exits` count. */
  datatype Slot = Slot(id: string, exit: Exit, handler: Handler, wake: Option<nat>, sends: nat, closes: nat, exits: nat)

  /** Slots by identity; the table maps an id to the slot that holds it now. `stale` is what the janitor
      has swept and not closed yet. */
  datatype Table = Table(slots: map<string, nat>, all: seq<Slot>, takers: map<nat, Taker>, stale: multiset<nat>)

  datatype Step =
    | Offer(id: string)
    | Take(id: string, x: nat)          // taker x looks for a slot and takes it out, under the lock
    | HandOver(x: nat)                  // then puts its connection on the wake channel
    | DropTaker(x: nat)                 // or loses its own connection first
    | Expire(id: string)                // the janitor takes a stale slot out, under the lock
    | Close(k: nat)                     // then closes its wake channel
    | Wake(k: nat)                      // the parked handler receives
    | GiveUp(k: nat)                    // its timer fires, or its reply was lost
    | Remove(k: nat)                    // its deferred clean-up

  /** Taker x has taken a slot out and not gone on yet. */
  predicate Taking(t: Table, x: nat) {
    x in t.takers && t.takers[x].Took? && t.takers[x].k < |t.all|
  }

  predicate Enabled(t: Table, st: Step) {
    match st
    case Offer(_) => true
    case Take(id, x) => x !in t.takers && (id in t.slots ==> t.slots[id] < |t.all|)
    case HandOver(x) => Taking(t, x)
    case DropTaker(x) => Taking(t, x)
    case Expire(id) => id in t.slots && t.slots[id] < |t.all|
    case Close(k) => k in t.stale && k < |t.all|
    case Wake(k) => k < |t.all| && t.all[k].handler.Parked? && (t.all[k].wake.Some? || t.all[k].closes > 0)
    case GiveUp(k) => k < |t.all| && t.all[k].handler.Parked?
    case Remove(k) => k < |t.all| && (t.all[k].handler.Paired? || t.all[k].handler.Told? || t.all[k].handler.GivenUp?)
  }

  /** The table and the slots once `who` has taken out the slot under id. */
  function TakenOut(t: Table, id: string, who: Exit): Table
    requires id in t.slots && t.slots[id] < |t.all|
  {
    var k := t.slots[id];
    t.(slots := t.slots - {id}, all := t.all[k := t.all[k].(exit := who, exits := t.all[k].exits + 1)])
  }

  function Act(t: Table, st: Step): Table
    requires Enabled(t, st)
  {
    match st
    case Offer(id) =>
      if |t.slots| >= MAX_SLOTS || id in t.slots then t
      else t.(slots := t.slots[id := |t.all|], all := t.all + [Slot(id, Here, Parked, None, 0, 0, 0)])
    case Take(id, x) =>
      if id !in t.slots then t.(takers := t.takers[x := Missed])
      else TakenOut(t, id, ByTaker(x)).(takers := t.takers[x := Took(t.slots[id])])
    case HandOver(x) =>
      var k := t.takers[x].k;
      // the channel holds one: a second send would find it full and be refused
      if t.all[k].wake.Some? then t.(takers := t.takers[x := Refused(k)])
      else t.(takers := t.takers[x := Sent(k)],
          all := t.all[k := t.all[k].(wake := Some(x), sends := t.all[k].sends + 1)])
    case DropTaker(x) => t.(takers := t.takers[x := Dropped(t.takers[x].k)])
    case Expire(id) => TakenOut(t, id, ByJanitor).(stale := t.stale + multiset{t.slots[id]})
    case Close(k) =>
      t.(stale := t.stale - multiset{k}, all := t.all[k := t.all[k].(closes := t.all[k].closes + 1)])
    case Wake(k) =>
      var s := t.all[k];
      var woken := if s.wake.Some? then s.(handler := Paired(s.wake.value), wake := None) else s.(handler := Told);
      t.(all := t.all[k := woken])
    case GiveUp(k) => t.(all := t.all[k := t.all[k].(handler := GivenUp)])
    case Remove(k) =>
      var s := t.all[k];
      if s.id in t.slots && t.slots[s.id] == k then
        var gone := s.(exit := ByOfferer, exits := s.exits + 1, handler := Left);
        TakenOut(t, s.id, ByOfferer).(all := t.all[k := gone])
      else t.(all := t.all[k := s.(handler := Left)])
  }

  predicate TookSlot(t: Table, x: nat, k: nat) {
    x in t.takers && !t.takers[x].Missed? && t.takers[x].k == k
  }

  predicate HasSent(t: Table, x: nat, k: nat) {
    x in t.takers && t.takers[x] == Sent(k)
  }

  function One(b: bool): nat {
    if b then 1 else 0
  }

  /** One slot: in the table exactly while nobody took it out; sent to as often as the taker that took it
      has sent, closed as often as the janitor that took it has closed it. */
  predicate SlotSound(t: Table, k: nat)
    requires k < |t.all|
  {
    var s := t.all[k];
    && (s.exit.Here? <==> s.id in t.slots && t.slots[s.id] == k)
    && (s.exit.ByTaker? ==> TookSlot(t, s.exit.taker, k))
    && s.exits == One(!s.exit.Here?)
    && s.sends == One(s.exit.ByTaker? && HasSent(t, s.exit.taker, k))
    && s.closes + t.stale[k] == One(s.exit.ByJanitor?)
    && (s.handler.Left? ==> !s.exit.Here?)
    && (s.wake.Some? ==> s.exit == ByTaker(s.wake.value) && HasSent(t, s.wake.value, k) && !s.handler.Paired?)
    && (s.handler.Paired? ==> s.exit == ByTaker(s.handler.taker) && HasSent(t, s.handler.taker, k))
  }

  /** One taker: the slot it took left the table by it. */
  predicate TakerSound(t: Table, x: nat) {
    x in t.takers && !t.takers[x].Missed? ==>
      t.takers[x].k < |t.all| && t.all[t.takers[x].k].exit == ByTaker(x) && !t.takers[x].Refused?
  }

  predicate Mapped(t: Table, id: string) {
    id in t.slots ==> t.slots[id] < |t.all| && t.all[t.slots[id]].id == id
  }

  ghost predicate TableSound(t: Table) {
    && |t.slots| <= MAX_SLOTS
    && (forall k :: 0 <= k < |t.all| ==> SlotSound(t, k))
    && (forall x :: x in t.takers ==> TakerSound(t, x))
    && (forall id :: id in t.slots ==> Mapped(t, id))
    && (forall k :: k in t.stale ==> k < |t.all|)
  }

  /** The slot and the taker a step is about are sound too. */
  ghost predicate Around(t: Table, st: Step)
    requires Enabled(t, st)
  {
    match st
    case Offer(_) => true
    case Take(id, _) => Mapped(t, id) && (id in t.slots ==> SlotSound(t, t.slots[id]))
    case Expire(id) => Mapped(t, id) && SlotSound(t, t.slots[id])
    case HandOver(x) => TakerSound(t, x) && SlotSound(t, t.takers[x].k)
    case DropTaker(x) => TakerSound(t, x) && SlotSound(t, t.takers[x].k)
    case Close(k) => SlotSound(t, k)
    case Wake(k) => SlotSound(t, k)
    case GiveUp(k) => SlotSound(t, k)
    case Remove(k) => SlotSound(t, k)
  }

  lemma AroundStep(t: Table, st: Step)
    requires TableSound(t) && Enabled(t, st)
    ensures Around(t, st)
  {
    hide SlotSound;
  }

  lemma TakesStay(t: Table, st: Step, k: nat)
    requires Enabled(t, st) && Around(t, st) && k < |t.all| && SlotSound(t, k)
    requires st.Take? || st.Expire?
    ensures k < |Act(t, st).all| && SlotSound(Act(t, st), k)
  {
  }

  lemma RemovesStay(t: Table, st: Step, k: nat)
    requires Enabled(t, st) && Around(t, st) && k < |t.all| && SlotSound(t, k)
    requires st.Remove?
    ensures k < |Act(t, st).all| && SlotSound(Act(t, st), k)
  {
  }

  lemma TakersStepsStay(t: Table, st: Step, k: nat)
    requires Enabled(t, st) && Around(t, st) && k < |t.all| && SlotSound(t, k)
    requires st.HandOver? || st.DropTaker?
    ensures k < |Act(t, st).all| && SlotSound(Act(t, st), k)
  {
  }

  lemma HandlersStepsStay(t: Table, st: Step, k: nat)
    requires Enabled(t, st) && Around(t, st) && k < |t.all| && SlotSound(t, k)
    requires st.Offer? || st.Close? || st.Wake? || st.GiveUp?
    ensures k < |Act(t, st).all| && SlotSound(Act(t, st), k)
  {
  }

  lemma SlotStays(t: Table, st: Step, k: nat)
    requires Enabled(t, st) && Around(t, st) && k < |t.all| && SlotSound(t, k)
    ensures k < |Act(t, st).all| && SlotSound(Act(t, st), k)
  {
    hide Around, SlotSound, Act, Enabled;
    match st
    case Take(_, _) => TakesStay(t, st, k);
    case Expire(_) => TakesStay(t, st, k);
    case Remove(_) => RemovesStay(t, st, k);
    case HandOver(_) => TakersStepsStay(t, st, k);
    case DropTaker(_) => TakersStepsStay(t, st, k);
    case _ => HandlersStepsStay(t, st, k);
  }

  lemma OnlyOffersGrow(t: Table, st: Step)
    requires Enabled(t, st) && |Act(t, st).all| > |t.all|
    ensures st.Offer?
  {
  }

  lemma NewSlotIsSound(t: Table, id: string, k: nat)
    requires TableSound(t) && |t.all| <= k < |Act(t, Offer(id)).all|
    ensures SlotSound(Act(t, Offer(id)), k)
  {
  }

  lemma TakerStays(t: Table, st: Step, x: nat)
    requires Enabled(t, st) && Around(t, st) && TakerSound(t, x)
    requires x in t.takers && !t.takers[x].Missed? && t.takers[x].k < |t.all| ==> SlotSound(t, t.takers[x].k)
    ensures TakerSound(Act(t, st), x)
  {
  }

  lemma MapStays(t: Table, st: Step, id: string)
    requires Enabled(t, st) && Mapped(t, id)
    ensures Mapped(Act(t, st), id)
  {
  }

  lemma SlotsStay(t: Table, st: Step)
    requires Enabled(t, st)
    ensures |Act(t, st).all| >= |t.all|
    ensures |t.slots| <= MAX_SLOTS ==> |Act(t, st).slots| <= MAX_SLOTS
  {
  }

  /** An offer is parked exactly when the table has room and its id is free; every slot in the table belongs to a
      handler that has not left, and the table never outgrows its limit. */
  lemma OffersAreParked(steps: seq<Step>, id: string)
    requires Run(EMPTY, steps).Some?
    ensures var t := Run(EMPTY, steps).value;
            var u := Act(t, Offer(id));
            && |t.slots| <= MAX_SLOTS
            && (|t.slots| < MAX_SLOTS && id !in t.slots ==>
                  |u.all| == |t.all| + 1 && u.all[|t.all|].handler.Parked? && u.slots == t.slots[id := |t.all|])
            && (|t.slots| == MAX_SLOTS || id in t.slots ==> u == t)
            && forall x :: x in t.slots ==> t.slots[x] < |t.all| && !t.all[t.slots[x]].handler.Left?
  {
    RunsStaySound(EMPTY, steps);
    var t := Run(EMPTY, steps).value;
    forall x | x in t.slots
      ensures t.slots[x] < |t.all| && !t.all[t.slots[x]].handler.Left?
    {
      assert Mapped(t, x) && SlotSound(t, t.slots[x]);
    }
  }

  lemma StaleStays(t: Table, st: Step, k: nat)
    requires Enabled(t, st) && k in Act(t, st).stale
    ensures k in t.stale || k < |t.all|
  {
  }

  lemma StepStays(t: Table, st: Step)
    requires TableSound(t) && Enabled(t, st)
    ensures TableSound(Act(t, st))
  {
    hide Act, SlotSound, TakerSound, Around, Enabled, Mapped;
    AroundStep(t, st);
    SlotsStay(t, st);
    var u := Act(t, st);
    forall k | k in u.stale
      ensures k < |u.all|
    {
      StaleStays(t, st, k);
    }
    forall k | 0 <= k < |u.all|
      ensures SlotSound(u, k)
    {
      if k < |t.all| {
        SlotStays(t, st, k);
      } else {
        OnlyOffersGrow(t, st);
        NewSlotIsSound(t, st.id, k);
      }
    }
    forall x | x in u.takers
      ensures TakerSound(u, x)
    {
      TakerStays(t, st, x);
    }
    forall id | id in u.slots
      ensures Mapped(u, id)
    {
      MapStays(t, st, id);
    }
  }

  function Run(t: Table, steps: seq<Step>): Option<Table>
    decreases |steps|
  {
    if steps == [] then Some(t)
    else if Enabled(t, steps[0]) then Run(Act(t, steps[0]), steps[1..])
    else None
  }

  lemma {:induction false} RunsStaySound(t: Table, steps: seq<Step>)
    requires TableSound(t) && Run(t, steps).Some?
    ensures TableSound(Run(t, steps).value)
    decreases |steps|
  {
    hide TableSound, Act, Enabled;
    if steps != [] {
      StepStays(t, steps[0]);
      RunsStaySound(Act(t, steps[0]), steps[1..]);
    }
  }

  const EMPTY := Table(map[], [], map[], multiset{})

  /** In every interleaving a slot leaves the table at most once; its wake channel is never both sent to
      and closed, nor either twice; what is sent is the one taker that took the slot out, and so is whoever
      its offer is paired with. */
  lemma PairingIsExclusive(steps: seq<Step>, k: nat)
    requires Run(EMPTY, steps).Some? && k < |Run(EMPTY, steps).value.all|
    ensures var t := Run(EMPTY, steps).value;
            var s := t.all[k];
            && s.exits <= 1 && s.sends + s.closes <= 1
            && (s.wake.Some? ==> s.exit == ByTaker(s.wake.value))
            && (s.handler.Paired? ==> s.exit == ByTaker(s.handler.taker) && HasSent(t, s.handler.taker, k))
  {
    RunsStaySound(EMPTY, steps);
    assert SlotSound(Run(EMPTY, steps).value, k);
  }

  /** No taker is paired with two offers. */
  lemma TakersPairOnce(steps: seq<Step>, j: nat, k: nat, x: nat)
    requires Run(EMPTY, steps).Some? && j < |Run(EMPTY, steps).value.all| && k < |Run(EMPTY, steps).value.all|
    requires var t := Run(EMPTY, steps).value; t.all[j].handler == Paired(x) && t.all[k].handler == Paired(x)
    ensures j == k
  {
    PairingIsExclusive(steps, j);
    PairingIsExclusive(steps, k);
  }

  /** A slot's exit names taker x only by a take of x that found the slot in the table. */
  lemma ExitIsTheTake(t: Table, st: Step, k: nat, x: nat)
    requires Enabled(t, st) && k < |t.all| && t.all[k].exit != ByTaker(x) && Act(t, st).all[k].exit == ByTaker(x)
    ensures exists id :: st == Take(id, x) && id in t.slots && t.slots[id] == k
  {
    assert st.Take? && st == Take(st.id, x);
  }

  /** A handler's clean-up never drops another slot, in particular not a newer one under the same id. */
  lemma RemoveDropsOnlyItsOwn(t: Table, k: nat, id: string)
    requires TableSound(t) && Enabled(t, Remove(k)) && id in t.slots && t.slots[id] != k
    ensures var u := Act(t, Remove(k));
            id in u.slots && u.slots[id] == t.slots[id] && u.all[u.slots[id]] == t.all[t.slots[id]]
  {
    assert SlotSound(t, k) && SlotSound(t, t.slots[id]);
  }

  /** The taker's refusal branch is dead: the channel has room when it gets there. */
  lemma HandOverHasRoom(t: Table, x: nat)
    requires TableSound(t) && Enabled(t, HandOver(x))
    ensures var k := t.takers[x].k;
            Act(t, HandOver(x)).all[k].wake == Some(x) && Act(t, HandOver(x)).takers[x] == Sent(k)
  {
    assert TakerSound(t, x) && SlotSound(t, t.takers[x].k);
  }

  // ---------------------------------------------------------------------------------------
  // Told OK and handed to nobody

  /** The handler of slot k has gone on, and not to be paired with x. */
  predicate Past(t: Table, k: nat, x: nat) {
    k < |t.all| && !t.all[k].handler.Parked? && t.all[k].handler != Paired(x)
  }

  lemma TakenOutKeepsHandlers(t: Table, id: string, who: Exit, k: nat)
    requires id in t.slots && t.slots[id] < |t.all| && k < |t.all|
    ensures k < |TakenOut(t, id, who).all| && TakenOut(t, id, who).all[k].handler == t.all[k].handler
  {
  }

  lemma PastStays(t: Table, st: Step, k: nat, x: nat)
    requires Past(t, k, x) && Enabled(t, st)
    ensures Past(Act(t, st), k, x)
  {
    hide TakenOut;
    match st
    case Take(id, y) => if id in t.slots { TakenOutKeepsHandlers(t, id, ByTaker(y), k); }
    case Expire(id) => TakenOutKeepsHandlers(t, id, ByJanitor, k);
    case Remove(j) =>
      if t.all[j].id in t.slots && t.slots[t.all[j].id] == j {
        TakenOutKeepsHandlers(t, t.all[j].id, ByOfferer, k);
      }
    case _ =>
  }

  lemma {:induction false} PastForGood(t: Table, steps: seq<Step>, k: nat, x: nat)
    requires Past(t, k, x) && Run(t, steps).Some?
    ensures Past(Run(t, steps).value, k, x)
    decreases |steps|
  {
    hide Past, Act, Enabled;
    if steps != [] {
      PastStays(t, steps[0], k, x);
      PastForGood(Act(t, steps[0]), steps[1..], k, x);
    }
  }

  ghost predicate CanPair(t: Table, k: nat, x: nat) {
    exists steps: seq<Step> ::
      Run(t, steps).Some? && k < |Run(t, steps).value.all| && Run(t, steps).value.all[k].handler == Paired(x)
  }

  /** A taker that hands its connection over is paired in some continuation exactly when the offer's
      handler is still parked at that moment; otherwise it has been told OK and nobody will serve it. */
  lemma PairedIffParked(t: Table, x: nat)
    requires TableSound(t) && Enabled(t, HandOver(x))
    ensures var k := t.takers[x].k; CanPair(Act(t, HandOver(x)), k, x) <==> t.all[k].handler.Parked?
  {
    var k := t.takers[x].k;
    var u := Act(t, HandOver(x));
    assert TakerSound(t, x) && SlotSound(t, k);
    HandOverHasRoom(t, x);
    if t.all[k].handler.Parked? {
      var steps := [Wake(k)];
      assert steps[1..] == [] && Run(u, steps) == Some(Act(u, Wake(k)));
      assert Run(u, steps).value.all[k].handler == Paired(x);
    } else {
      assert Past(u, k, x);
      if CanPair(u, k, x) {
        var steps: seq<Step> :| Run(u, steps).Some? && k < |Run(u, steps).value.all|
                                && Run(u, steps).value.all[k].handler == Paired(x);
        PastForGood(u, steps, k, x);
      }
    }
  }

  /** It happens: the offer's timer fires between the take and the hand-over. */
  lemma HandedToNobody()
    ensures exists steps: seq<Step> ::
              var end := Run(EMPTY, steps);
              end.Some? && end.value.takers == map[7 := Sent(0)] && Past(end.value, 0, 7)
  {
    var t1 := Act(EMPTY, Offer("a"));
    var t2 := Act(t1, Take("a", 7));
    var t3 := Act(t2, GiveUp(0));
    var t4 := Act(t3, HandOver(7));
    assert t4.takers == map[7 := Sent(0)] && Past(t4, 0, 7);
    var steps: seq<Step> := [];
    FirstStep(t3, HandOver(7), steps);
    FirstStep(t2, GiveUp(0), [HandOver(7)] + steps);
    FirstStep(t1, Take("a", 7), [GiveUp(0)] + ([HandOver(7)] + steps));
    FirstStep(EMPTY, Offer("a"), [Take("a", 7)] + ([GiveUp(0)] + ([HandOver(7)] + steps)));
    assert Run(t4, steps) == Some(t4);
  }

  lemma FirstStep(t: Table, st: Step, steps: seq<Step>)
    requires Enabled(t, st)
    ensures Run(t, [st] + steps) == Run(Act(t, st), steps)
  {
    assert ([st] + steps)[1..] == steps;
  }

  // ---------------------------------------------------------------------------------------
  // The table under its lock

  class Waiting {
    const id: string
    const created: int

    constructor (id: string, created: int)
      ensures this.id == id && this.created == created
    {
      this.id, this.created := id, created;
    }
  }

  class Slots {
    var slots: map<string, Waiting>

    constructor ()
      ensures slots == map[]
    {
      slots := map[];
    }

    /** A new slot, unless the table is full or the id is taken. */
    method Offer(id: string, now: int) returns (s: Waiting?)
      modifies this
      ensures s == null <==> |old(slots)| >= MAX_SLOTS || id in old(slots)
      ensures s == null ==> slots == old(slots)
      ensures s != null ==> fresh(s) && s.id == id && s.created == now && slots == old(slots)[id := s]
    {
      s := null;
      if |slots| >= MAX_SLOTS || id in slots {
        return;
      }
      var w := new Waiting(id, now);
      slots := slots[id := w];
      s := w;
    }

    /** One shot: the first taker wins. */
    method Take(id: string) returns (s: Waiting?)
      modifies this
      ensures id in old(slots) ==> s == old(slots)[id] && slots == old(slots) - {id}
      ensures id !in old(slots) ==> s == null && slots == old(slots)
    {
      if id !in slots {
        return null;
      }
      s := slots[id];
      slots := slots - {id};
    }

    /** Deletes the slot unless it was already consumed or replaced. */
    method Remove(s: Waiting)
      modifies this
      ensures slots == if s.id in old(slots) && old(slots)[s.id] == s then old(slots) - {s.id} else old(slots)
    {
      if s.id in slots && slots[s.id] == s {
        slots := slots - {s.id};
      }
    }

    /** The janitor's sweep: slots created before the cutoff leave the table, and no others. */
    method Sweep(cutoff: int) returns (stale: seq<Waiting>)
      modifies this
      ensures forall id :: id in slots <==> id in old(slots) && old(slots)[id].created >= cutoff
      ensures forall id :: id in slots ==> slots[id] == old(slots)[id]
      ensures forall s :: s in stale <==> exists id :: id in old(slots) && old(slots)[id] == s && s.created < cutoff
      ensures |stale| + |slots| == |old(slots)|
    {
      stale := [];
      var todo := slots.Keys;
      while todo != {}
        invariant todo <= slots.Keys <= old(slots).Keys
        invariant forall id :: id in slots ==> slots[id] == old(slots)[id]
        invariant forall id :: id in old(slots) && id !in todo ==> (id in slots <==> old(slots)[id].created >= cutoff)
        invariant forall s :: s in stale <==>
                    exists id :: id in old(slots) && id !in todo && old(slots)[id] == s && s.created < cutoff
        invariant |stale| + |slots| == |old(slots)|
        decreases todo
      {
        var id :| id in todo;
        var s := slots[id];
        todo := todo - {id};
        if s.created < cutoff {
          slots := slots - {id};
          stale := stale + [s];
        }
      }
    }
  }
}
