/** What a user's voice state reads as: through joins, updates and everything that is not about it. */
module VoiceStates {
  import opened Models
  import opened VoiceModel
  import opened VoicePresence

  function After(v: Voice, steps: seq<Step>): Voice
    decreases |steps|
  {
    if steps == [] then v else Next(After(v, steps[..|steps| - 1]), steps[|steps| - 1])
  }

  /** The state a join stores reads back, and no other state changes. */
  lemma JoinReadsBack(v: Voice, channel: string, server: Option<string>, user: string, at: int, other: Slot)
    ensures var w := Joined(v, channel, server, user, at);
      && HasState(w, channel, server, user)
      && StateOf(w, channel, server, user) == UserVoiceState(user, at, false, true, false, false)
      && user in MembersOf(w, channel)
      && w.current == v.current[SlotOf(channel, server, user) := channel]
      && (other != SlotOf(channel, server, user) ==> PartsOf(w, other) == PartsOf(v, other))
  {
  }

  /** Each given part of an update reads back, every other part of the state and every other state stays. */
  lemma UpdateReadsBack(v: Voice, slot: Slot, patch: Parts, other: Slot)
    ensures var w, was := Updated(v, slot, patch), PartsOf(v, slot);
      var now := PartsOf(w, slot);
      && now.joinedAt == was.joinedAt
      && (if patch.publishing.Some? then now.publishing == patch.publishing else now.publishing == was.publishing)
      && (if patch.receiving.Some? then now.receiving == patch.receiving else now.receiving == was.receiving)
      && (if patch.screensharing.Some? then now.screensharing == patch.screensharing
          else now.screensharing == was.screensharing)
      && (if patch.camera.Some? then now.camera == patch.camera else now.camera == was.camera)
      && (other != slot ==> PartsOf(w, other) == PartsOf(v, other))
      && w.members == v.members && w.channels == v.channels && w.active == v.active && w.current == v.current
  {
  }

  /** The slots a step may overwrite or delete. */
  ghost predicate About(v: Voice, step: Step, slot: Slot) {
    match step
    case Join(channel, server, user, _) => SlotOf(channel, server, user) == slot
    case Leave(channel, server, user) => SlotOf(channel, server, user) == slot
    case Update(updated, _) => updated == slot
    case DeleteChannel(channel, server) =>
      slot.user in MembersOf(v, channel) && SlotOf(channel, server, slot.user) == slot
    case Disconnect(user, listed, serverOf) =>
      user == slot.user && exists c :: c in listed && SlotOf(c, serverOf(c), user) == slot
    case Read(channel, server, listed) =>
      slot.user in listed && SlotOf(channel, server, slot.user) == slot && !PartsOf(v, slot).Full()
  }

  lemma {:induction false} LeftAllSpares(
    v: Voice, listed: seq<string>, serverOf: string -> Option<string>, user: string, slot: Slot)
    requires user != slot.user || forall c :: c in listed ==> SlotOf(c, serverOf(c), user) != slot
    ensures PartsOf(LeftAll(v, listed, serverOf, user), slot) == PartsOf(v, slot)
    decreases |listed|
  {
    if listed != [] {
      LeftAllSpares(v, listed[..|listed| - 1], serverOf, user, slot);
      assert listed[|listed| - 1] in listed;
    }
  }

  lemma {:induction false} HealedSpares(
    v: Voice, channel: string, server: Option<string>, listed: seq<string>, slot: Slot)
    requires !(slot.user in listed && SlotOf(channel, server, slot.user) == slot && !PartsOf(v, slot).Full())
    ensures PartsOf(Healed(v, channel, server, listed), slot) == PartsOf(v, slot)
    decreases |listed|
  {
    if listed != [] {
      HealedSpares(v, channel, server, listed[..|listed| - 1], slot);
      assert listed[|listed| - 1] in listed;
    }
  }

  /** A step that is not about a state leaves it as it is. */
  lemma OtherStatesStay(v: Voice, step: Step, slot: Slot)
    requires !About(v, step, slot)
    ensures PartsOf(Next(v, step), slot) == PartsOf(v, slot)
  {
    match step {
      case Disconnect(user, listed, serverOf) => LeftAllSpares(v, listed, serverOf, user, slot);
      case Read(channel, server, listed) => HealedSpares(v, channel, server, listed, slot);
      case _ =>
    }
  }

  // ----- From a join on -----

  /** Nothing but updates is about the state during the steps. */
  ghost predicate OnlyUpdated(v: Voice, steps: seq<Step>, slot: Slot)
    decreases |steps|
  {
    steps == [] ||
    var init, step := steps[..|steps| - 1], steps[|steps| - 1];
    OnlyUpdated(v, init, slot) && (step.Update? || !About(After(v, init), step, slot))
  }

  /** What the last update of the slot that gives a part gives for it. */
  function LastGiven(steps: seq<Step>, slot: Slot, part: Parts -> Option<bool>, otherwise: bool): bool
    decreases |steps|
  {
    if steps == [] then otherwise
    else
      var step := steps[|steps| - 1];
      if step.Update? && step.slot == slot && part(step.patch).Some? then part(step.patch).value
      else LastGiven(steps[..|steps| - 1], slot, part, otherwise)
  }

  function ExpectedParts(steps: seq<Step>, slot: Slot, at: int): Parts {
    Parts(Some(at),
          Some(LastGiven(steps, slot, (p: Parts) => p.publishing, false)),
          Some(LastGiven(steps, slot, (p: Parts) => p.receiving, true)),
          Some(LastGiven(steps, slot, (p: Parts) => p.screensharing, false)),
          Some(LastGiven(steps, slot, (p: Parts) => p.camera, false)))
  }

  lemma {:induction false} PartsSinceJoin(v: Voice, steps: seq<Step>, slot: Slot, at: int)
    requires PartsOf(v, slot) == Parts(Some(at), Some(false), Some(true), Some(false), Some(false))
    requires OnlyUpdated(v, steps, slot)
    ensures PartsOf(After(v, steps), slot) == ExpectedParts(steps, slot, at)
    decreases |steps|
  {
    if steps != [] {
      var init, step := steps[..|steps| - 1], steps[|steps| - 1];
      PartsSinceJoin(v, init, slot, at);
      if step.Update? {
        UpdateReadsBack(After(v, init), step.slot, step.patch, slot);
      } else {
        OtherStatesStay(After(v, init), step, slot);
      }
    }
  }

  /**
   From a join until something ends it, a user's state reads as joined at that time, receiving and not publishing,
   sharing nothing, but for each part the last update that gives it.
   */
  lemma StateSinceJoin(v: Voice, channel: string, server: Option<string>, user: string, at: int, steps: seq<Step>)
    requires OnlyUpdated(Joined(v, channel, server, user, at), steps, SlotOf(channel, server, user))
    ensures var w, slot := After(Joined(v, channel, server, user, at), steps), SlotOf(channel, server, user);
      && HasState(w, channel, server, user)
      && StateOf(w, channel, server, user) == UserVoiceState(user, at,
           LastGiven(steps, slot, (p: Parts) => p.publishing, false),
           LastGiven(steps, slot, (p: Parts) => p.receiving, true),
           LastGiven(steps, slot, (p: Parts) => p.screensharing, false),
           LastGiven(steps, slot, (p: Parts) => p.camera, false))
  {
    PartsSinceJoin(Joined(v, channel, server, user, at), steps, SlotOf(channel, server, user), at);
  }

  /** After a leave there is no state, until the next join an update stores parts but never a full state. */
  lemma NoStateAfterLeave(v: Voice, channel: string, server: Option<string>, user: string, patch: Parts)
    ensures var slot, w := SlotOf(channel, server, user), Left(v, channel, server, user);
      && slot !in w.current && PartsOf(w, slot) == NO_PARTS && user !in MembersOf(w, channel)
      && !HasState(Updated(w, slot, patch), channel, server, user)
  {
  }

  // ----- The channel a user is in -----

  /** A user has a current channel for a server exactly while a join time is stored for it. */
  ghost predicate CurrentMatches(v: Voice) {
    forall slot :: slot in v.current <==> PartsOf(v, slot).joinedAt.Some?
  }

  lemma {:induction false} LeftAllMatches(
    v: Voice, listed: seq<string>, serverOf: string -> Option<string>, user: string)
    requires CurrentMatches(v)
    ensures CurrentMatches(LeftAll(v, listed, serverOf, user))
    decreases |listed|
  {
    if listed != [] {
      LeftAllMatches(v, listed[..|listed| - 1], serverOf, user);
    }
  }

  lemma {:induction false} HealedMatches(v: Voice, channel: string, server: Option<string>, listed: seq<string>)
    requires CurrentMatches(v)
    ensures CurrentMatches(Healed(v, channel, server, listed))
    decreases |listed|
  {
    if listed != [] {
      HealedMatches(v, channel, server, listed[..|listed| - 1]);
    }
  }

  lemma ClearedMatches(v: Voice, channel: string, server: Option<string>, users: set<string>)
    requires CurrentMatches(v)
    ensures CurrentMatches(Cleared(v, channel, server, users))
  {
  }

  /** In every run. */
  lemma {:induction false} EveryRunCurrent(steps: seq<Step>)
    ensures CurrentMatches(Run(steps))
    decreases |steps|
  {
    if steps != [] {
      EveryRunCurrent(steps[..|steps| - 1]);
      var v := Run(steps[..|steps| - 1]);
      match steps[|steps| - 1] {
        case DeleteChannel(channel, server) => ClearedMatches(v, channel, server, MembersOf(v, channel));
        case Disconnect(user, listed, serverOf) => LeftAllMatches(v, listed, serverOf, user);
        case Read(channel, server, listed) => HealedMatches(v, channel, server, listed);
        case _ =>
      }
    }
  }

  // ----- Channels of one server -----

  /** A user has one state for all channels of a server: a join of one of them reads back in each of the others. */
  lemma StatePerServer(v: Voice, channel: string, other: string, server: string, user: string, at: int)
    ensures var w := Joined(v, channel, Some(server), user, at);
      && HasState(w, other, Some(server), user)
      && StateOf(w, other, Some(server), user) == UserVoiceState(user, at, false, true, false, false)
      && Slot(user, server) in w.current && w.current[Slot(user, server)] == channel
  {
  }

  /** Leaving one of them ends it in each; a channel of another server, or of none, has a state of its own. */
  lemma LeaveEndsServerState(v: Voice, left: string, server: string, kept: string, keptIn: Option<string>, user: string)
    requires HasState(v, kept, keptIn, user) && (keptIn.None? ==> kept != server)
    ensures HasState(Left(v, left, Some(server), user), kept, keptIn, user) <==> keptIn != Some(server)
  {
    LeaveSparesStateIff(v, left, Some(server), kept, keptIn, user);
  }
}
