/** The listener's whole state (registry, what the signs subject holds, how many times it was
    published) and how sequences of block events drive it. */
module Runs {
  import opened SignTypes
  import opened Reconciler

  /** The block events the listener handles. A redstone event carries what the world showed one
      block above the powered block when it fired. */
  datatype Event =
    | BlockBreak(block: Loc)
    | RedstoneChange(block: Loc, newCurrent: int, topBlock: Option<Lines>)
    | SignChanged(block: Loc, lines: Lines)

  /** What the signs subject holds: the empty list it was created with, or the live view of the
      registry's values that every publish pushes. */
  datatype SignsValue = InitialList | ValuesView

  datatype ListenerState = ListenerState(signs: map<Loc, Sign>, subject: SignsValue, publishes: nat)

  /** The listener as constructed: no signs, nothing published. */
  function Init(): ListenerState
  {
    ListenerState(map[], InitialList, 0)
  }

  /** The listener's state invariant: a well-formed registry, and the subject holds the live view
      exactly when something has been published. */
  ghost predicate Consistent(st: ListenerState)
  {
    WellFormed(st.signs) && (st.subject == ValuesView <==> st.publishes > 0)
  }

  /** The rule that handles `e`. */
  function Handle(m: map<Loc, Sign>, e: Event): (r: Outcome)
    // entries at positions the event does not name are left alone
    ensures forall l :: !Touches(e, l) ==> (l in r.signs <==> l in m) && (l in m ==> r.signs[l] == m[l])
    ensures WellFormed(m) ==> WellFormed(r.signs)
  {
    match e
    case BlockBreak(block) => Break(m, block)
    case RedstoneChange(block, newCurrent, topBlock) => Redstone(m, block, newCurrent, topBlock)
    case SignChanged(block, lines) => SignChange(m, block, lines)
  }

  /** The positions an event may change: the broken block and the one above it, the block above
      a powered block, the written sign. */
  predicate Touches(e: Event, l: Loc)
  {
    match e
    case BlockBreak(block) => l == block || l == Above(block)
    case RedstoneChange(block, _, _) => l == Above(block)
    case SignChanged(block, _) => l == block
  }

  /** Stores the new registry and, when the handler publishes, pushes the live view once more. */
  function Apply(st: ListenerState, o: Outcome): ListenerState
  {
    if o.publish then ListenerState(o.signs, ValuesView, st.publishes + 1)
    else st.(signs := o.signs)
  }

  function Step(st: ListenerState, e: Event): ListenerState
  {
    Apply(st, Handle(st.signs, e))
  }

  function Run(st: ListenerState, events: seq<Event>): ListenerState
    decreases |events|
  {
    if events == [] then st else Run(Step(st, events[0]), events[1..])
  }

  /** What `getSigns` returns: nothing before the first publish, the registry's current values
      after it. */
  function Visible(st: ListenerState): (r: set<Sign>)
    ensures st.subject == InitialList ==> r == {}
    // in a well-formed registry, a sign is visible exactly when it is the one stored under its own location
    ensures st.subject == ValuesView && WellFormed(st.signs) ==>
              forall s :: s in r <==> s.location in st.signs && st.signs[s.location] == s
  {
    match st.subject
    case InitialList => {}
    case ValuesView => st.signs.Values
  }

  lemma StepConsistent(st: ListenerState, e: Event)
    requires Consistent(st)
    ensures Consistent(Step(st, e))
  {
  }

  /** Every sequence of events keeps the listener consistent. */
  lemma {:induction false} RunConsistent(st: ListenerState, events: seq<Event>)
    requires Consistent(st)
    ensures Consistent(Run(st, events))
    decreases |events|
  {
    if events != [] {
      StepConsistent(st, events[0]);
      RunConsistent(Step(st, events[0]), events[1..]);
    }
  }

  /** Events that never name position `l` leave the entry at `l` as it was, present or absent,
      with the same state. */
  lemma {:induction false} RunLocality(st: ListenerState, events: seq<Event>, l: Loc)
    requires forall i :: 0 <= i < |events| ==> !Touches(events[i], l)
    ensures l in Run(st, events).signs <==> l in st.signs
    ensures l in st.signs ==> Run(st, events).signs[l] == st.signs[l]
    decreases |events|
  {
    if events != [] {
      assert !Touches(events[0], l);
      RunLocality(Step(st, events[0]), events[1..], l);
    }
  }

  /** Every handled event that changes the registry publishes, with one exception: a sign the
      world shows above an unpowered block is stored without a publish. */
  lemma QuietHandle(m: map<Loc, Sign>, e: Event)
    ensures !Handle(m, e).publish ==>
              || Handle(m, e).signs == m
              || (e.RedstoneChange? && Above(e.block) !in m && e.topBlock.Some? && e.newCurrent <= 0)
  {
  }

  /** From a fresh listener, `getSigns` is empty until the first publish; from then on it is the
      collection of all tracked signs, one per tracked location. */
  lemma GetSignsAfterRun(events: seq<Event>)
    ensures var st := Run(Init(), events);
            && (st.publishes == 0 ==> Visible(st) == {})
            && (st.publishes > 0 ==> Visible(st) == st.signs.Values && |Visible(st)| == |st.signs|)
  {
    RunConsistent(Init(), events);
    var st := Run(Init(), events);
    if st.publishes > 0 {
      ValuesCount(st.signs);
    }
  }

  /** Repeating a redstone event leaves the listener exactly as the first one did: no change and
      no further publish. */
  lemma RedstoneStepRepeated(st: ListenerState, block: Loc, newCurrent: int, topBlock: Option<Lines>)
    ensures var e := RedstoneChange(block, newCurrent, topBlock);
            Step(Step(st, e), e) == Step(st, e)
  {
  }

  /** Repeating a sign text edit publishes once more but leaves the same registry. */
  lemma SignChangeStepRepeated(st: ListenerState, block: Loc, lines: Lines)
    ensures var e := SignChanged(block, lines);
            && Step(Step(st, e), e).signs == Step(st, e).signs
            && Step(Step(st, e), e).publishes == Step(st, e).publishes + 1
  {
  }

  /** A sign "Door" at y = 64 powered from below: written, powered twice, its control block
      broken, then the sign itself broken. */
  lemma DoorScenario(w: string)
    ensures var door := Loc(w, 0, 64, 0);
            var power := Loc(w, 0, 63, 0);
            var written := Step(Init(), SignChanged(door, ["Door"]));
            var powered := Step(written, RedstoneChange(power, 15, Some(["Door"])));
            var again := Step(powered, RedstoneChange(power, 15, Some(["Door"])));
            var unpowered := Step(again, BlockBreak(power));
            var gone := Step(unpowered, BlockBreak(door));
            && Visible(written) == {Sign("Door", false, door, power)} && written.publishes == 1
            && Visible(powered) == {Sign("Door", true, door, power)} && powered.publishes == 2
            && again == powered
            && Visible(unpowered) == {Sign("Door", false, door, power)} && unpowered.publishes == 3
            && Visible(gone) == {} && gone.publishes == 4
  {
  }
}
