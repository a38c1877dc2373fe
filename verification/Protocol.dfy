/**
 The order in which one connection may publish, as an automaton, and the
 same order stated position by position.
 */
module Protocol {
  import opened Bootstrap

  datatype Stage = Fresh | Announced | Live | Withdrawn | Closed | Broken

  function Next(stage: Stage, action: Action): (next: Stage) {
    match (stage, action)
    case (Fresh, PublishDiscovery) => Announced
    case (Announced, PublishOnline) => Live
    case (Live, PublishState) => Live
    case (Announced, PublishOffline) => Withdrawn
    case (Live, PublishOffline) => Withdrawn
    case (Withdrawn, Disconnect) => Closed
    case _ => Broken
  }

  /** The stage a connection has reached after some actions. */
  function StageAfter(actions: seq<Action>): (stage: Stage) {
    if actions == [] then Fresh
    else Next(StageAfter(actions[..|actions| - 1]), actions[|actions| - 1])
  }

  lemma StageAfterNext(actions: seq<Action>, action: Action)
    ensures StageAfter(actions + [action]) == Next(StageAfter(actions), action)
  {
    assert (actions + [action])[..|actions|] == actions;
  }

  /** An order that is still good was good at every earlier point. */
  lemma {:induction false} PrefixIsGood(before: seq<Action>, after: seq<Action>)
    requires !StageAfter(before + after).Broken?
    ensures !StageAfter(before).Broken?
    decreases |after|
  {
    if after == [] {
      assert before + after == before;
    } else {
      var shorter := after[..|after| - 1];
      assert before + after == (before + shorter) + [after[|after| - 1]];
      StageAfterNext(before + shorter, after[|after| - 1]);
      PrefixIsGood(before, shorter);
    }
  }

  /**
   Discovery first and only first; availability "online" second or never; state
   only after "online"; nothing after "offline" except the disconnect, and
   nothing after that.
   */
  ghost predicate InOrder(actions: seq<Action>) {
    forall i :: 0 <= i < |actions| ==> InPlace(actions, i)
  }

  ghost predicate InPlace(actions: seq<Action>, i: nat)
    requires i < |actions|
  {
    match actions[i]
    case PublishDiscovery => i == 0
    case PublishOnline => i == 1
    case PublishState => i >= 2 && actions[1].PublishOnline?
    case PublishOffline => i >= 1 && (i + 1 < |actions| ==> actions[i + 1].Disconnect?)
    case Disconnect => i >= 2 && actions[i - 1].PublishOffline? && i + 1 == |actions|
  }

  /** What each stage says about the actions that led to it. */
  ghost predicate StageFacts(actions: seq<Action>) {
    var n := |actions|;
    match StageAfter(actions)
    case Fresh => n == 0
    case Announced => n == 1
    case Live => n >= 2 && actions[1].PublishOnline? && !actions[n - 1].PublishOffline? && !actions[n - 1].Disconnect?
    case Withdrawn => n >= 2 && actions[n - 1].PublishOffline?
    case Closed => n >= 3 && actions[n - 2].PublishOffline? && actions[n - 1].Disconnect?
    case Broken => true
  }

  /** The automaton accepts only what the positional description allows. */
  lemma {:induction false} AutomatonIsSound(actions: seq<Action>)
    requires !StageAfter(actions).Broken?
    ensures InOrder(actions) && StageFacts(actions)
    decreases |actions|
  {
    if actions != [] {
      var n := |actions| - 1;
      var before := actions[..n];
      AutomatonIsSound(before);
      forall i | 0 <= i < n
        ensures InPlace(actions, i)
      {
        assert InPlace(before, i);
      }
    }
  }

  /** The automaton accepts everything the positional description allows. */
  lemma {:induction false} AutomatonIsComplete(actions: seq<Action>)
    requires InOrder(actions)
    ensures !StageAfter(actions).Broken?
    decreases |actions|
  {
    if actions != [] {
      var n := |actions| - 1;
      var before := actions[..n];
      forall i | 0 <= i < n
        ensures InPlace(before, i)
      {
        assert InPlace(actions, i);
      }
      AutomatonIsComplete(before);
      AutomatonIsSound(before);
      assert InPlace(actions, n);
      if n > 0 { assert InPlace(actions, n - 1); }
    }
  }

  /** The automaton and the positional description are the same order. */
  lemma OrderIsTheAutomaton(actions: seq<Action>)
    ensures InOrder(actions) <==> !StageAfter(actions).Broken?
  {
    if InOrder(actions) {
      AutomatonIsComplete(actions);
    } else if !StageAfter(actions).Broken? {
      AutomatonIsSound(actions);
    }
  }
}
