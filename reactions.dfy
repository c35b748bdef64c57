/** The reaction handler: a set/clear state machine on a message's
    `is_liked` field, mirrored onto `id - 1` when the targeted id is even. */
module Reactions {
  import opened ChatTypes

  /** The element the positional operator `messages.$` resolves to: the
      first message carrying this id. */
  function FirstIndex(ms: seq<Message>, id: int): (r: Option<nat>)
    ensures r.Some? ==> r.value < |ms| && ms[r.value].messageId == id &&
                        forall j :: 0 <= j < r.value ==> ms[j].messageId != id
    ensures r.None? ==> forall j :: 0 <= j < |ms| ==> ms[j].messageId != id
    decreases |ms|
  {
    if ms == [] then None
    else if ms[0].messageId == id then Some(0)
    else match FirstIndex(ms[1..], id)
      case None => None
      case Some(k) => Some(k + 1)
  }

  /** The `is_liked` that the projection `messages.$` reads (None when the
      field is absent). */
  function LikedOf(ms: seq<Message>, id: int): Option<bool>
  {
    match FirstIndex(ms, id)
    case None => None
    case Some(k) => ms[k].isLiked
  }

  ghost predicate SameIds(a: seq<Message>, b: seq<Message>)
  {
    |a| == |b| && forall j :: 0 <= j < |a| ==> a[j].messageId == b[j].messageId
  }

  /** The positional match only looks at ids. */
  lemma {:induction false} SameIdsFirstIndex(a: seq<Message>, b: seq<Message>, id: int)
    requires SameIds(a, b)
    ensures FirstIndex(a, id) == FirstIndex(b, id)
    decreases |a|
  {
    if a != [] {
      assert SameIds(a[1..], b[1..]) by {
        forall j | 0 <= j < |a[1..]|
          ensures a[1..][j].messageId == b[1..][j].messageId
        {
          assert a[1..][j] == a[j + 1] && b[1..][j] == b[j + 1];
        }
      }
      SameIdsFirstIndex(a[1..], b[1..], id);
    }
  }

  /** `update_reaction`: set `is_liked` (or unset it, for None) and
      `updated_at` on the first message with this id; no such message, no
      change. */
  function UpdateReaction(ms: seq<Message>, id: int, isLiked: Option<bool>, now: Timestamp): (r: seq<Message>)
    ensures SameIds(ms, r)
    ensures forall j :: 0 <= j < |ms| && FirstIndex(ms, id) != Some(j) ==> r[j] == ms[j]
    ensures FirstIndex(ms, id).Some? ==> LikedOf(r, id) == isLiked
    ensures FirstIndex(ms, id).Some? ==>
              var k := FirstIndex(ms, id).value;
              r[k] == ms[k].(isLiked := isLiked, updatedAt := now)
  {
    match FirstIndex(ms, id)
    case None => ms
    case Some(k) =>
      var r := ms[k := ms[k].(isLiked := isLiked, updatedAt := now)];
      SameIdsFirstIndex(ms, r, id);
      r
  }

  datatype ReactionOutcome = ReactionRemoved | ReactionSet(isLiked: bool)

  /** The reaction handler on one chat's messages. */
  function Toggle(ms: seq<Message>, id: int, isLiked: bool, now: Timestamp)
    : (r: Result<(seq<Message>, ReactionOutcome), Error>)
    ensures r.Failure? <==> FirstIndex(ms, id).None?
    ensures r.Failure? ==> r.error == MessageNotFound
    ensures r.Success? ==> SameIds(ms, r.value.0)
    ensures r.Success? ==> (r.value.1 == ReactionRemoved <==> LikedOf(ms, id) == Some(isLiked))
    ensures r.Success? && r.value.1 != ReactionRemoved ==> r.value.1 == ReactionSet(isLiked)
    ensures r.Success? ==> forall j :: 0 <= j < |ms| && ms[j].messageId != id && ms[j].messageId != id - 1 ==>
                             r.value.0[j] == ms[j]
    ensures r.Success? && id % 2 != 0 ==>
              forall j :: 0 <= j < |ms| && FirstIndex(ms, id) != Some(j) ==> r.value.0[j] == ms[j]
    ensures r.Success? ==>
              forall j :: 0 <= j < |ms| && FirstIndex(ms, id) != Some(j) && FirstIndex(ms, id - 1) != Some(j) ==>
                r.value.0[j] == ms[j]
    ensures r.Success? ==>
              var v: Option<bool> := if LikedOf(ms, id) == Some(isLiked) then None else Some(isLiked);
              var k := FirstIndex(ms, id).value;
              r.value.0[k] == ms[k].(isLiked := v, updatedAt := now) &&
              (id % 2 == 0 && FirstIndex(ms, id - 1).Some? ==>
                 var m := FirstIndex(ms, id - 1).value;
                 r.value.0[m] == ms[m].(isLiked := v, updatedAt := now))
  {
    match FirstIndex(ms, id)
    case None => Failure(MessageNotFound)
    case Some(k) =>
      if ms[k].isLiked == Some(isLiked) then
        var cleared := UpdateReaction(ms, id, None, now);
        SameIdsFirstIndex(ms, cleared, id - 1);
        Success((if id % 2 == 0 then UpdateReaction(cleared, id - 1, None, now) else cleared, ReactionRemoved))
      else
        var marked := UpdateReaction(ms, id, Some(isLiked), now);
        SameIdsFirstIndex(ms, marked, id - 1);
        Success((if id % 2 == 0 then UpdateReaction(marked, id - 1, Some(isLiked), now) else marked, ReactionSet(isLiked)))
  }

  function ReactionDescription(o: ReactionOutcome): string
  {
    match o
    case ReactionRemoved => "Message Reaction Removed"
    case ReactionSet(v) => "Message is_liked " + (if v then "True" else "False")
  }

  // ---------------------------------------------------------------------
  // Properties

  /** Updating the message with another id leaves this id's state alone. */
  lemma UpdateOtherKeepsLiked(ms: seq<Message>, id: int, other: int, v: Option<bool>, now: Timestamp)
    requires other != id
    ensures FirstIndex(UpdateReaction(ms, other, v, now), id) == FirstIndex(ms, id)
    ensures LikedOf(UpdateReaction(ms, other, v, now), id) == LikedOf(ms, id)
  {
    var r := UpdateReaction(ms, other, v, now);
    SameIdsFirstIndex(ms, r, id);
    match FirstIndex(ms, id)
    case None =>
    case Some(k) =>
      assert FirstIndex(ms, other) != Some(k);
  }

  /** The target ends cleared when it already held the requested value, and
      holding the requested value otherwise. */
  lemma ToggleTarget(ms: seq<Message>, id: int, isLiked: bool, now: Timestamp)
    requires Toggle(ms, id, isLiked, now).Success?
    ensures LikedOf(Toggle(ms, id, isLiked, now).value.0, id)
            == if LikedOf(ms, id) == Some(isLiked) then None else Some(isLiked)
  {
    var v: Option<bool> := if LikedOf(ms, id) == Some(isLiked) then None else Some(isLiked);
    var first := UpdateReaction(ms, id, v, now);
    if id % 2 == 0 {
      UpdateOtherKeepsLiked(first, id, id - 1, v, now);
    }
  }

  /** Reacting twice with the same value: from neutral (or the opposite
      value) the target ends neutral; from that value it ends with it again. */
  lemma ToggleTwice(ms: seq<Message>, id: int, isLiked: bool, now1: Timestamp, now2: Timestamp)
    requires Toggle(ms, id, isLiked, now1).Success?
    ensures var once := Toggle(ms, id, isLiked, now1).value.0;
            Toggle(once, id, isLiked, now2).Success? &&
            LikedOf(Toggle(once, id, isLiked, now2).value.0, id)
              == if LikedOf(ms, id) == Some(isLiked) then Some(isLiked) else None
  {
    var once := Toggle(ms, id, isLiked, now1).value.0;
    SameIdsFirstIndex(ms, once, id);
    ToggleTarget(ms, id, isLiked, now1);
    ToggleTarget(once, id, isLiked, now2);
  }

  /** Starting from neutral, the same reaction twice returns to neutral. */
  lemma ToggleTwiceFromNeutral(ms: seq<Message>, id: int, isLiked: bool, now1: Timestamp, now2: Timestamp)
    requires FirstIndex(ms, id).Some? && LikedOf(ms, id).None?
    ensures Toggle(ms, id, isLiked, now1).Success?
    ensures var once := Toggle(ms, id, isLiked, now1).value.0;
            LikedOf(once, id) == Some(isLiked) &&
            Toggle(once, id, isLiked, now2).Success? &&
            LikedOf(Toggle(once, id, isLiked, now2).value.0, id).None?
  {
    ToggleTarget(ms, id, isLiked, now1);
    ToggleTwice(ms, id, isLiked, now1, now2);
  }

  /** An even id mirrors the target's new state onto the first message with
      id `id - 1`, when there is one. */
  lemma ToggleEvenMirrors(ms: seq<Message>, id: int, isLiked: bool, now: Timestamp)
    requires id % 2 == 0 && Toggle(ms, id, isLiked, now).Success?
    requires FirstIndex(ms, id - 1).Some?
    ensures var after := Toggle(ms, id, isLiked, now).value.0;
            LikedOf(after, id - 1) == LikedOf(after, id)
  {
    var v: Option<bool> := if LikedOf(ms, id) == Some(isLiked) then None else Some(isLiked);
    var first := UpdateReaction(ms, id, v, now);
    SameIdsFirstIndex(ms, first, id - 1);
    ToggleTarget(ms, id, isLiked, now);
  }
}
