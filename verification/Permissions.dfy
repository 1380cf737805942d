/**
 Permission values: masks changed by overrides. An override first allows and then
 denies, so deny beats allow inside one override, and a stack of overrides is
 applied from the lowest role to the highest.
 */
module Permissions {
  import opened Models

  const MANAGE_CHANNEL: Flag := 0
  const VIEW_CHANNEL: Flag := 20
  const READ_MESSAGE_HISTORY: Flag := 21
  const SEND_MESSAGE: Flag := 22
  const INVITE_OTHERS: Flag := 25
  const SEND_EMBEDS: Flag := 26
  const UPLOAD_FILES: Flag := 27
  const REACT: Flag := 29
  const CONNECT: Flag := 30
  const SPEAK: Flag := 31
  const VIDEO: Flag := 32
  const LISTEN: Flag := 36
  const ALLOW_IN_TIMEOUT: Mask := {VIEW_CHANNEL, READ_MESSAGE_HISTORY}
  const GRANT_ALL_SAFE: Mask := set f: Flag | f < 52
  const DEFAULT_VIEW_ONLY: Mask := {VIEW_CHANNEL, READ_MESSAGE_HISTORY}
  const DEFAULT_DIRECT_MESSAGE: Mask := DEFAULT_VIEW_ONLY
    + {SEND_MESSAGE, INVITE_OTHERS, SEND_EMBEDS, UPLOAD_FILES, CONNECT, SPEAK, LISTEN, VIDEO}
    + {MANAGE_CHANNEL, REACT}

  // Permissions against another user.
  const ACCESS: Flag := 0
  const VIEW_PROFILE: Flag := 1
  const MESSAGE_USER: Flag := 2

  const ALL_FLAGS: Mask := set f: Flag | f < 64

  // ----- Specification of the value operations -----

  function Applied(value: Mask, o: Override): Mask {
    (value + o.allow) - o.deny
  }

  /** A whole stack, first element first. */
  function AppliedAll(value: Mask, stack: seq<Override>): Mask
    decreases |stack|
  {
    if stack == [] then value
    else Applied(AppliedAll(value, stack[..|stack| - 1]), stack[|stack| - 1])
  }

  // ----- The mutable value -----

  class PermissionValue {
    var value: Mask

    constructor (raw: Mask)
      ensures value == raw
    {
      value := raw;
    }

    method Allow(v: Mask)
      modifies this
      ensures value == old(value) + v
    {
      value := value + v;
    }

    method Revoke(v: Mask)
      modifies this
      ensures value == old(value) - v
    {
      value := value - v;
    }

    method RevokeAll()
      modifies this
      ensures value == {}
    {
      value := {};
    }

    method Restrict(v: Mask)
      modifies this
      ensures value == old(value) * v
    {
      value := value * v;
    }

    method Apply(o: Override)
      modifies this
      ensures value == Applied(old(value), o)
    {
      Allow(o.allow);
      Revoke(o.deny);
    }

    /** The loop of both calculations: apply every override of a stack in order. */
    method ApplyStack(stack: seq<Override>)
      modifies this
      ensures value == AppliedAll(old(value), stack)
    {
      for i := 0 to |stack|
        invariant value == AppliedAll(old(value), stack[..i])
      {
        assert stack[..i + 1][..i] == stack[..i];
        Apply(stack[i]);
      }
      assert stack[..|stack|] == stack;
    }

    predicate Has(wanted: Mask)
      reads this
    {
      wanted <= value
    }
  }

  // ----- Collapsing a stack -----

  /** The one override that acts like `first` followed by `second`. */
  function Composed(first: Override, second: Override): Override {
    Override(first.allow + second.allow, (first.deny - second.allow) + second.deny)
  }

  function Collapsed(stack: seq<Override>): Override
    decreases |stack|
  {
    if stack == [] then Override({}, {})
    else Composed(Collapsed(stack[..|stack| - 1]), stack[|stack| - 1])
  }

  /** Any list of overrides is one override, whatever value it is applied to. */
  lemma {:induction false} StackCollapses(value: Mask, stack: seq<Override>)
    ensures AppliedAll(value, stack) == Applied(value, Collapsed(stack))
    decreases |stack|
  {
    if stack != [] {
      StackCollapses(value, stack[..|stack| - 1]);
    }
  }

  lemma {:induction false} AppliedAllConcat(value: Mask, low: seq<Override>, high: seq<Override>)
    ensures AppliedAll(value, low + high) == AppliedAll(AppliedAll(value, low), high)
    decreases |high|
  {
    if high == [] {
      assert low + high == low;
    } else {
      var init := high[..|high| - 1];
      assert (low + high)[..|low + high| - 1] == low + init;
      AppliedAllConcat(value, low, init);
    }
  }

  // ----- Which override decides a bit -----

  predicate Mentions(o: Override, flag: Flag) {
    flag in o.allow || flag in o.deny
  }

  /** Overrides that say nothing about the flag leave it alone. */
  lemma {:induction false} SilentStackKeepsFlag(value: Mask, stack: seq<Override>, flag: Flag)
    requires forall i :: 0 <= i < |stack| ==> !Mentions(stack[i], flag)
    ensures flag in AppliedAll(value, stack) <==> flag in value
    decreases |stack|
  {
    if stack != [] {
      SilentStackKeepsFlag(value, stack[..|stack| - 1], flag);
    }
  }

  /** Each flag is decided by the last override that mentions it, whatever came before. */
  lemma LastMentionDecides(value: Mask, stack: seq<Override>, k: nat, flag: Flag)
    requires k < |stack| && Mentions(stack[k], flag)
    requires forall i :: k < i < |stack| ==> !Mentions(stack[i], flag)
    ensures flag in AppliedAll(value, stack) <==> flag !in stack[k].deny
  {
    var low, high := stack[..k + 1], stack[k + 1..];
    assert low + high == stack;
    AppliedAllConcat(value, low, high);
    SilentStackKeepsFlag(AppliedAll(value, low), high, flag);
  }

  // ----- Agreement and growth through a stack -----

  /** Values that agree on a flag still agree on it after the same stack. */
  lemma {:induction false} StackKeepsFlag(a: Mask, b: Mask, flag: Flag, stack: seq<Override>)
    requires flag in a <==> flag in b
    ensures flag in AppliedAll(a, stack) <==> flag in AppliedAll(b, stack)
    decreases |stack|
  {
    if stack != [] {
      StackKeepsFlag(a, b, flag, stack[..|stack| - 1]);
    }
  }

  /** And so on a whole mask. */
  lemma StackKeepsAgreement(a: Mask, b: Mask, mask: Mask, stack: seq<Override>)
    requires a * mask == b * mask
    ensures AppliedAll(a, stack) * mask == AppliedAll(b, stack) * mask
  {
    forall f: Flag | f in mask ensures f in AppliedAll(a, stack) <==> f in AppliedAll(b, stack) {
      assert f in a <==> f in a * mask;
      assert f in b <==> f in b * mask;
      StackKeepsFlag(a, b, f, stack);
    }
  }

  /** A stack never widens the difference between two values. */
  lemma {:induction false} StackCannotAddGain(before: Mask, after: Mask, stack: seq<Override>)
    ensures AppliedAll(after, stack) - AppliedAll(before, stack) <= after - before
    decreases |stack|
  {
    if stack != [] {
      StackCannotAddGain(before, after, stack[..|stack| - 1]);
    }
  }
}
