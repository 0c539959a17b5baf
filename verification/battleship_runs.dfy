/** Runs of the board component: any interleaving of its effects and timer
    callbacks, and what stays true along every run. */
module BattleshipRuns {
  import opened Wrappers
  import opened Battleship

  /** One thing that can happen to the component. */
  datatype Event =
    | Rendered(props: Props)                  // the result effect runs
    | BoardChanged(board: Option<Board>)      // the position-modal effect runs
    | OpponentChanged(opponent: Option<Opponent>)
    | SettleFired(index: nat)
    | HideFired(index: nat)
    | GridLocked(ships: Positions)

  /** The event can happen in `v`: a timer must be pending, and a ship the
      component marks must be one it tracks. */
  predicate Allowed(v: View, ev: Event) {
    match ev
    case Rendered(p) => UpdateDefined(v, p)
    case BoardChanged(_) => true
    case OpponentChanged(o) => OpponentDefined(v, o)
    case SettleFired(i) => i < |v.timers| && v.timers[i].Settle?
    case HideFired(i) => i < |v.timers| && !v.timers[i].Settle?
    case GridLocked(_) => true
  }

  function Next(v: View, ev: Event): View
    requires Allowed(v, ev)
  {
    match ev
    case Rendered(p) => OnUpdate(v, p)
    case BoardChanged(b) => OnBoardChange(v, b)
    case OpponentChanged(o) => OnOpponent(v, o)
    case SettleFired(i) => OnSettle(v, i)
    case HideFired(i) => OnHide(v, i)
    case GridLocked(ships) => OnShipGridLocked(v, ships).0
  }

  predicate Feasible(v: View, events: seq<Event>)
    decreases |events|
  {
    events == [] || (Allowed(v, events[0]) && Feasible(Next(v, events[0]), events[1..]))
  }

  function Run(v: View, events: seq<Event>): View
    requires Feasible(v, events)
    decreases |events|
  {
    if events == [] then v else Run(Next(v, events[0]), events[1..])
  }

  /** No flag is lost and no ship is added or dropped. */
  predicate FlagsRise(v: View, w: View) {
    && w.enemyShips.Keys == v.enemyShips.Keys
    && forall k | k in v.enemyShips :: v.enemyShips[k] ==> w.enemyShips[k]
  }

  /** After the initial reset, "destroyed" flags only go from false to true. */
  lemma {:induction false} FlagsOnlyRise(v: View, events: seq<Event>)
    requires Feasible(v, events)
    ensures FlagsRise(v, Run(v, events))
    decreases |events|
  {
    if events != [] {
      var w := Next(v, events[0]);
      assert FlagsRise(v, w);
      FlagsOnlyRise(w, events[1..]);
    }
  }

  /** From a freshly mounted component, the progress list always tracks
      exactly the four ships, so a destroyed result can be marked iff it
      names one of them. */
  lemma MountedRunTracksShipKinds(p: Props, events: seq<Event>)
    requires p.opponent.Some?
    requires Feasible(Mount(p), events)
    ensures Run(Mount(p), events).enemyShips.Keys == ShipKinds
  {
    FlagsOnlyRise(Mount(p), events);
  }

  function CountResults(events: seq<Event>): nat {
    if events == [] then 0
    else (if events[0].Rendered? && events[0].props.result.Some? then 1 else 0) + CountResults(events[1..])
  }

  /** The grids' attack histories are append-only, and together they grow by
      exactly one entry per attack result the component sees. */
  lemma {:induction false} HistoriesAppendOnly(v: View, events: seq<Event>)
    requires Feasible(v, events)
    ensures v.attackGrid.attacks <= Run(v, events).attackGrid.attacks
    ensures v.shipGrid.attacks <= Run(v, events).shipGrid.attacks
    ensures |Run(v, events).attackGrid.attacks| + |Run(v, events).shipGrid.attacks|
         == |v.attackGrid.attacks| + |v.shipGrid.attacks| + CountResults(events)
    decreases |events|
  {
    if events != [] {
      var w := Next(v, events[0]);
      HistoriesAppendOnly(w, events[1..]);
      if events[0].Rendered? && events[0].props.result.Some? {
        var p := events[0].props;
        if p.attacker == p.player.uuid {
          assert w.attackGrid.attacks == v.attackGrid.attacks + [Positioned(p.result.value)];
        } else {
          assert w.shipGrid.attacks == v.shipGrid.attacks + [Positioned(p.result.value)];
        }
      } else {
        assert w.attackGrid.attacks == v.attackGrid.attacks && w.shipGrid.attacks == v.shipGrid.attacks;
      }
    }
  }

  /** The settle step that follows a result announces the same turn the
      no-result path would have announced, without re-checking that the match
      is ready; until then the turn indicator shows what it showed before. */
  lemma SettleAgreesWithAnnouncement(v: View, p: Props)
    requires p.result.Some? && UpdateDefined(v, p)
    ensures
      var u := OnUpdate(v, p);
      var i := |v.timers|;
      && i < |u.timers| && u.timers[i].Settle?
      && Announces(OnSettle(u, i), TurnFor(p.player.uuid == p.matchState.activePlayer))
      && (p.matchState.ready ==>
            var n := OnUpdate(v, p.(result := None));
            && OnSettle(u, i).activeBoard == n.activeBoard
            && OnSettle(u, i).turnModalText == n.turnModalText
            && OnSettle(u, i).attackGrid.enabled == n.attackGrid.enabled
            && OnSettle(u, i).turnModalVisible == n.turnModalVisible)
  {
  }

  /** When the board is not valid the position modal is shown, and the hide
      callback it schedules closes it again. */
  lemma PositionModalShownThenHidden(v: View, board: Option<Board>)
    requires !(board.Some? && board.value.valid)
    ensures
      var u := OnBoardChange(v, board);
      && u.positionModalVisible
      && |v.timers| < |u.timers| && u.timers[|v.timers|] == HidePositionModal
      && !OnHide(u, |v.timers|).positionModalVisible
  {
  }

  /** Strict equality tells a `null` id from a missing one: a result whose
      attacker is missing, seen by a player whose id is `null`, is an incoming
      attack and goes to the ship grid. */
  lemma NullIdIsNotMissingId(v: View, res: AttackResult)
    ensures
      var p := Props(Player(NullId, None, []), None, Match(true, NullId), Some(res), Missing);
      && UpdateDefined(v, p)
      && OnUpdate(v, p).shipGrid.attacks == v.shipGrid.attacks + [Positioned(res)]
      && OnUpdate(v, p).attackGrid.attacks == v.attackGrid.attacks
  {
  }
}
