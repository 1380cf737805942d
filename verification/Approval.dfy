/**
 Deciding whether a caller may replace one override by another, and what such a
 replacement can do to the permissions of the members it reaches.
 */
module Approval {
  import opened Models
  import opened Permissions

  /** The check made before an override is stored: no new allow and no lifted deny beyond one's own. */
  predicate MayReplace(approver: Mask, current: Option<Override>, next: Override) {
    match current
    case Some(c) => next.allow - c.allow <= approver && c.deny - next.deny <= approver
    case None => next.allow <= approver
  }

  function Optional(o: Option<Override>): seq<Override> {
    if o.Some? then [o.value] else []
  }

  /** A member's server permissions: defaults, role stack, voice flags, timeout. */
  function ServerValue(
    defaults: Mask, stack: seq<Override>, canPublish: bool, canReceive: bool, timedOut: bool): Mask
  {
    var p0 := AppliedAll(defaults, stack);
    var p1 := if canPublish then p0 else p0 - {SPEAK} - {VIDEO};
    var p2 := if canReceive then p1 else p1 - {LISTEN};
    if timedOut then p2 * ALLOW_IN_TIMEOUT else p2
  }

  /** The channel's stack on top of the server permissions, before a hidden channel is emptied. */
  function StackValue(serverValue: Mask, stack: seq<Override>, timedOut: bool): Mask {
    var p := AppliedAll(serverValue, stack);
    if timedOut then p * ALLOW_IN_TIMEOUT else p
  }

  /** From the server permissions to those in one text channel. */
  function ChannelValue(serverValue: Mask, stack: seq<Override>, timedOut: bool): Mask {
    var p := StackValue(serverValue, stack, timedOut);
    if VIEW_CHANNEL in p then p else {}
  }

  lemma ReplacementGain(value: Mask, current: Option<Override>, next: Override, approver: Mask)
    requires MayReplace(approver, current, next)
    ensures AppliedAll(value, [next]) - AppliedAll(value, Optional(current)) <= approver
  {
    assert AppliedAll(value, [next]) == Applied(AppliedAll(value, []), next);
    if current.Some? {
      assert AppliedAll(value, [current.value]) == Applied(AppliedAll(value, []), current.value);
    }
  }

  /** Replacing one layer anywhere in a stack gains no more than the layer itself does. */
  lemma StackReplacementGain(
    base: Mask, low: seq<Override>, current: Option<Override>, next: Override, high: seq<Override>, approver: Mask)
    requires MayReplace(approver, current, next)
    ensures AppliedAll(base, low + [next] + high)
          - AppliedAll(base, low + Optional(current) + high) <= approver
  {
    AppliedAllConcat(base, low + [next], high);
    AppliedAllConcat(base, low, [next]);
    AppliedAllConcat(base, low + Optional(current), high);
    AppliedAllConcat(base, low, Optional(current));
    var value := AppliedAll(base, low);
    ReplacementGain(value, current, next, approver);
    StackCannotAddGain(AppliedAll(value, Optional(current)), AppliedAll(value, [next]), high);
  }

  /** An accepted replacement of a role override gives no member a server permission the approver lacks. */
  lemma AcceptedReplacementIsBounded(
    approver: Mask, current: Option<Override>, next: Override,
    base: Mask, low: seq<Override>, high: seq<Override>,
    canPublish: bool, canReceive: bool, timedOut: bool)
    requires MayReplace(approver, current, next)
    ensures ServerValue(base, low + [next] + high, canPublish, canReceive, timedOut)
          - ServerValue(base, low + Optional(current) + high, canPublish, canReceive, timedOut) <= approver
  {
    StackReplacementGain(base, low, current, next, high, approver);
  }

  /** The replacement gains nothing beyond the approver, whatever value it is applied to. */
  ghost predicate NoGain(approver: Mask, current: Option<Override>, next: Override) {
    forall value :: AppliedAll(value, [next]) - AppliedAll(value, Optional(current)) <= approver
  }

  function Now(current: Option<Override>): Override {
    if current.Some? then current.value else Override({}, {})
  }

  /** A replacement is harmless exactly if what it newly grants and what it no longer denies are the approver's own. */
  lemma NoGainIff(approver: Mask, current: Option<Override>, next: Override)
    ensures NoGain(approver, current, next) <==>
      && (next.allow - next.deny) - Now(current).allow <= approver
      && Now(current).deny - next.deny <= approver
  {
    forall value ensures AppliedAll(value, [next]) == Applied(value, next)
      && AppliedAll(value, Optional(current)) == Applied(value, Now(current))
    {
      GainAt(value, current, next);
      assert Applied(value, Override({}, {})) == value;
    }
    if NoGain(approver, current, next) {
      assert AppliedAll({}, [next]) - AppliedAll({}, Optional(current)) <= approver;
      assert AppliedAll(ALL_FLAGS, [next]) - AppliedAll(ALL_FLAGS, Optional(current)) <= approver;
    }
  }

  /**
   The check accepts exactly the harmless replacements whose newly allowed flags, even those the
   override denies again, are the approver's own; so it refuses a harmless one exactly if it
   allows and denies a flag that was not allowed before and that the approver lacks.
   */
  lemma MayReplaceIffNoGain(approver: Mask, current: Option<Override>, next: Override)
    ensures MayReplace(approver, current, next) <==>
      NoGain(approver, current, next) && next.allow * next.deny - Now(current).allow <= approver
  {
    NoGainIff(approver, current, next);
  }

  lemma GainAt(value: Mask, current: Option<Override>, next: Override)
    ensures AppliedAll(value, [next]) == Applied(value, next)
    ensures AppliedAll(value, Optional(current)) ==
            if current.Some? then Applied(value, current.value) else value
  {
    assert AppliedAll(value, [next]) == Applied(AppliedAll(value, []), next);
    if current.Some? {
      assert AppliedAll(value, [current.value]) == Applied(AppliedAll(value, []), current.value);
    }
  }

  /** With an overlapping override the check may also refuse a harmless replacement. */
  lemma OverlappingOverrideRefusedThoughHarmless()
    ensures var next := Override({SPEAK}, {SPEAK});
      && !MayReplace({}, None, next)
      && forall value :: AppliedAll(value, [next]) - AppliedAll(value, Optional(None)) <= {}
  {
    var next := Override({SPEAK}, {SPEAK});
    forall value ensures AppliedAll(value, [next]) - AppliedAll(value, Optional(None)) <= {} {
      GainAt(value, None, next);
    }
  }

  /**
   Inside a channel the bound fails in one case only: the stack hid the channel before and shows
   it after the replacement, and what both stacks hold beneath is more than the approver has.
   */
  lemma ChannelReplacementBoundedIff(
    approver: Mask, current: Option<Override>, next: Override,
    serverValue: Mask, low: seq<Override>, high: seq<Override>, timedOut: bool)
    requires MayReplace(approver, current, next)
    ensures var was, becomes := low + Optional(current) + high, low + [next] + high;
      var beneath, above := StackValue(serverValue, was, timedOut), StackValue(serverValue, becomes, timedOut);
      ChannelValue(serverValue, becomes, timedOut) - ChannelValue(serverValue, was, timedOut) <= approver <==>
        !(VIEW_CHANNEL !in beneath && VIEW_CHANNEL in above && !(beneath * above <= approver))
  {
    StackReplacementGain(serverValue, low, current, next, high, approver);
    var was, becomes := low + Optional(current) + high, low + [next] + high;
    var beneath, above := StackValue(serverValue, was, timedOut), StackValue(serverValue, becomes, timedOut);
    assert above - beneath <= approver;
    assert above == (above - beneath) + beneath * above;
  }

  /** The failing case: an approver who only holds the view flag hands out a hidden voice permission. */
  lemma ChannelReplacementMayUncover()
    ensures var next := Override({VIEW_CHANNEL}, {});
      && MayReplace({VIEW_CHANNEL}, None, next)
      && ChannelValue({SPEAK}, [] + Optional(None) + [], false) == {}
      && SPEAK in ChannelValue({SPEAK}, [] + [next] + [], false)
  {
    var next := Override({VIEW_CHANNEL}, {});
    GainAt({SPEAK}, None, next);
    assert [] + [next] + [] == [next];
    assert [] + Optional(None) + [] == [];
  }
}
