/** The block listener: it owns the registry of tracked signs and the signs subject, and its
    handlers change both in place. */
module Listener {
  import opened SignTypes
  import opened Reconciler
  import opened Runs

  class BukkitServerListener {
    /** The tracked signs, keyed by location. */
    var ohSigns: map<Loc, Sign>
    /** What the signs subject currently holds. */
    var signsRx: SignsValue
    /** How many times the signs subject has been published to. */
    var publishes: nat

    ghost predicate Valid()
      reads this
    {
      Consistent(State())
    }

    function State(): ListenerState
      reads this
    {
      ListenerState(ohSigns, signsRx, publishes)
    }

    constructor ()
      ensures Valid()
      ensures State() == Init()
    {
      ohSigns := map[];
      signsRx := InitialList;
      publishes := 0;
    }

    /** A block was broken: drop the sign standing there, or else switch off the sign standing
        on top of it. */
    method BlockDestroyEvent(block: Loc)
      requires Valid()
      modifies this
      ensures Valid()
      ensures State() == Step(old(State()), BlockBreak(block))
    {
      var removedSign: Option<Sign> := if block in ohSigns then Some(ohSigns[block]) else None;
      ohSigns := ohSigns - {block};
      if removedSign.Some? {
        UpdateSigns();
      } else {
        var top := Above(block);
        if top in ohSigns {
          ohSigns := ohSigns[top := ohSigns[top].(state := false)];
          UpdateSigns();
        }
      }
    }

    /** The redstone current of `block` changed: find the sign on top of it (registering one the
        world shows there if it is not yet tracked) and switch it to follow the current. */
    method BlockRedstoneEvent(block: Loc, newCurrent: int, world: World)
      requires Valid()
      modifies this
      ensures Valid()
      ensures State() == Step(old(State()), RedstoneChange(block, newCurrent, world(Above(block))))
    {
      var topPosition := Above(block);
      var sign: Option<Sign> := if topPosition in ohSigns then Some(ohSigns[topPosition]) else None;
      if sign.None? {
        var topBlock := world(topPosition);
        if topBlock.Some? {
          var signText := topBlock.value[0];
          sign := Some(Sign(signText, false, topPosition, block));
          ohSigns := ohSigns[topPosition := sign.value];
        }
      }
      if sign.Some? {
        var newState := newCurrent > 0;
        if sign.value.state != newState {
          ohSigns := ohSigns[topPosition := sign.value.(state := newState)];
          UpdateSigns();
        }
      }
    }

    /** The text of the sign at `block` was written: track it, switched off, driven by the block
        below it. */
    method OnSignChange(block: Loc, lines: Lines)
      requires Valid()
      modifies this
      ensures Valid()
      ensures State() == Step(old(State()), SignChanged(block, lines))
    {
      var ohSign := Sign(lines[0], false, block, Below(block));
      ohSigns := ohSigns[ohSign.location := ohSign];
      UpdateSigns();
    }

    /** Pushes the live view of the registry's values into the signs subject. */
    method UpdateSigns()
      modifies this
      ensures ohSigns == old(ohSigns)
      ensures signsRx == ValuesView
      ensures publishes == old(publishes) + 1
    {
      signsRx := ValuesView;
      publishes := publishes + 1;
    }

    /** The value the signs subject holds: nothing before the first publish, afterwards every
        tracked sign, each found under its own location. */
    method GetSigns() returns (signs: set<Sign>)
      requires Valid()
      ensures signs == Visible(State())
      ensures publishes == 0 ==> signs == {}
      ensures publishes > 0 ==> signs == ohSigns.Values && |signs| == |ohSigns|
      ensures forall s :: s in signs ==> s.location in ohSigns && ohSigns[s.location] == s
    {
      match signsRx
      case InitialList =>
        signs := {};
      case ValuesView =>
        signs := ohSigns.Values;
        ValuesCount(ohSigns);
    }
  }
}
