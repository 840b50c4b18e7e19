/** The rules by which each block event changes the map from locations to tracked signs, and
    whether the handler then publishes the signs. */
module Reconciler {
  import opened SignTypes

  /** The registry after one event, and whether the handler published it. */
  datatype Outcome = Outcome(signs: map<Loc, Sign>, publish: bool)

  /** Every entry is stored under its own location, and its control block is the one below it. */
  ghost predicate WellFormed(m: map<Loc, Sign>)
  {
    forall l :: l in m ==> m[l].location == l && m[l].control == Below(l)
  }

  /** A block is broken. A tracked sign there is removed; otherwise a tracked sign standing on
      the broken block is switched off. */
  function Break(m: map<Loc, Sign>, block: Loc): (r: Outcome)
    // the broken block is a tracked sign: exactly that entry goes, and it is published
    ensures block in m ==> r.publish && r.signs.Keys == m.Keys - {block}
    // otherwise a tracked sign directly above loses its power and is published, even if it was off
    ensures block !in m && Above(block) in m ==>
              && r.publish
              && r.signs.Keys == m.Keys
              && r.signs[Above(block)] == m[Above(block)].(state := false)
    // neither: no change and no publish
    ensures block !in m && Above(block) !in m ==> !r.publish && r.signs == m
    // no other entry changes; in particular removing a sign never touches the sign above it
    ensures forall l :: l in r.signs && (block in m || l != Above(block)) ==> l in m && r.signs[l] == m[l]
    ensures WellFormed(m) ==> WellFormed(r.signs)
  {
    if block in m then
      Outcome(m - {block}, true)
    else if Above(block) in m then
      var top := Above(block);
      Outcome(m[top := m[top].(state := false)], true)
    else
      Outcome(m, false)
  }

  /** The redstone current of `block` changes to `newCurrent`; `topBlock` is what the world shows
      one block up. A sign up there, tracked or newly found, follows the power level. */
  function Redstone(m: map<Loc, Sign>, block: Loc, newCurrent: int, topBlock: Option<Lines>): (r: Outcome)
    // a tracked sign above takes the new state, and is published exactly when the state flips
    ensures Above(block) in m ==>
              && r.signs.Keys == m.Keys
              && r.signs[Above(block)] == m[Above(block)].(state := newCurrent > 0)
              && (r.publish <==> m[Above(block)].state != (newCurrent > 0))
              && (!r.publish ==> r.signs == m)
    // an untracked sign above is added, named by its first line and driven by this block;
    // it is published only when the new current is positive
    ensures Above(block) !in m && topBlock.Some? ==>
              && r.signs.Keys == m.Keys + {Above(block)}
              && r.signs[Above(block)] == Sign(topBlock.value[0], newCurrent > 0, Above(block), block)
              && (r.publish <==> newCurrent > 0)
    // no sign above: no change and no publish
    ensures Above(block) !in m && topBlock.None? ==> !r.publish && r.signs == m
    // only the entry above the block can change
    ensures forall l :: l in m && l != Above(block) ==> l in r.signs && r.signs[l] == m[l]
    ensures WellFormed(m) ==> WellFormed(r.signs)
  {
    var top := Above(block);
    var newState := newCurrent > 0;
    if top in m then
      if m[top].state != newState then Outcome(m[top := m[top].(state := newState)], true)
      else Outcome(m, false)
    else if topBlock.Some? then
      // the sign is first stored switched off, then switched like a tracked one
      var found := Sign(topBlock.value[0], false, top, block);
      if found.state != newState then Outcome(m[top := found.(state := newState)], true)
      else Outcome(m[top := found], false)
    else
      Outcome(m, false)
  }

  /** The text of the sign at `block` is written: the sign is (re)declared, switched off and
      driven by the block below it, and the signs are always published. */
  function SignChange(m: map<Loc, Sign>, block: Loc, lines: Lines): (r: Outcome)
    ensures r.publish
    ensures r.signs.Keys == m.Keys + {block}
    ensures r.signs[block] == Sign(lines[0], false, block, Below(block))
    ensures forall l :: l in m && l != block ==> r.signs[l] == m[l]
    ensures WellFormed(m) ==> WellFormed(r.signs)
  {
    Outcome(m[block := Sign(lines[0], false, block, Below(block))], true)
  }

  /** A second identical redstone event changes nothing and publishes nothing. */
  lemma RedstoneRepeated(m: map<Loc, Sign>, block: Loc, newCurrent: int, topBlock: Option<Lines>)
    ensures var first := Redstone(m, block, newCurrent, topBlock);
            var second := Redstone(first.signs, block, newCurrent, topBlock);
            !second.publish && second.signs == first.signs
  {
  }

  /** Writing the same sign text twice leaves the same registry as writing it once. */
  lemma SignChangeRepeated(m: map<Loc, Sign>, block: Loc, lines: Lines)
    ensures var first := SignChange(m, block, lines);
            var second := SignChange(first.signs, block, lines);
            second.publish && second.signs == first.signs
  {
  }

  /** In a well-formed registry no two entries hold the same sign, so the collection of its
      values has one element per tracked location. */
  lemma {:induction false} ValuesCount(m: map<Loc, Sign>)
    requires WellFormed(m)
    ensures |m.Values| == |m|
    decreases |m|
  {
    if m != map[] {
      var k :| k in m;
      var rest := m - {k};
      assert |rest| == |m| - 1 by { assert rest.Keys == m.Keys - {k}; }
      ValuesCount(rest);
      forall v | v in rest.Values
        ensures v != m[k]
      {
        var j :| j in rest && rest[j] == v;
      }
      assert m.Values == rest.Values + {m[k]};
    }
  }
}
