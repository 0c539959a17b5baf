/** The turn-presentation step of the game board: how the board component
    derives what is visible (which grid, the turn and position modals, whether
    attacks are enabled, the per-enemy-ship "destroyed" flags) from the match,
    the player, the opponent and the last attack result. Each effect body is a
    pure step on a `View`; the delayed callbacks are pending `Timer`s that
    fire as explicit steps. */
module Battleship {
  import opened Wrappers

  // ---------------------------------------------------------------------------
  // Store data the component reads
  // ---------------------------------------------------------------------------

  /** A player id as the store holds it: missing (`undefined`), `null`, or a
      string. Strict equality (`===`) of two ids is equality of these values:
      `undefined === undefined` and `null === null` hold, `null === undefined`
      does not. */
  datatype Uuid = Missing | NullId | Id(name: string)

  datatype Coord = Coord(x: int, y: int)

  /** An attack result `{origin, type, destroyed}`, plus the `position` field
      the component writes onto it before recording it. */
  datatype AttackResult = AttackResult(origin: Coord, kind: string, destroyed: bool, position: Option<Coord>)

  datatype Placement = Placement(id: int, origin: Coord, orientation: Option<string>)

  /** Ship placements by ship name. */
  type Positions = map<string, Placement>

  datatype Board = Board(positions: Option<Positions>, valid: bool)

  datatype Player = Player(uuid: Uuid, board: Option<Board>, attacks: seq<AttackResult>)

  /** The opponent; its `board`, when present, is given by its keys. */
  datatype Opponent = Opponent(board: Option<set<string>>, attacks: seq<AttackResult>)

  datatype Match = Match(ready: bool, activePlayer: Uuid)

  /** The component's inputs. */
  datatype Props = Props(player: Player, opponent: Option<Opponent>, matchState: Match, result: Option<AttackResult>, attacker: Uuid)

  /** The four enemy ships the progress list tracks. */
  const ShipKinds: set<string> := {"Submarine", "Destroyer", "Battleship", "Carrier"}

  /** The placements shown on the ship grid when the player has no board yet. */
  const DefaultShips: Positions := map[
    "Submarine" := Placement(0, Coord(0, 0), None),
    "Destroyer" := Placement(1, Coord(2, 2), None),
    "Battleship" := Placement(2, Coord(1, 1), Some("horizontal")),
    "Carrier" := Placement(3, Coord(0, 4), Some("horizontal"))
  ]

  /** Every tracked enemy ship still afloat. */
  const AllAfloat: map<string, bool> := map k | k in ShipKinds :: false

  const YourTurnText: string := "Your turn"
  const EnemyTurnText: string := "Enemy's turn"

  // ---------------------------------------------------------------------------
  // Derived view
  // ---------------------------------------------------------------------------

  datatype BoardName = AttackBoard | ShipBoard

  /** A scheduled callback. `Settle` carries whether the player was the active
      player in the render that scheduled it (its closure captured that render's
      player and match). No timer is ever cancelled. */
  datatype Timer = Settle(myTurn: bool) | HideTurnModal | HidePositionModal

  /** The attack grid widget: whether it accepts attacks, and what it has recorded. */
  datatype AttackGrid = AttackGrid(enabled: bool, attacks: seq<AttackResult>)

  /** The ship grid widget: the ships it shows, incoming attacks, and whether it is locked. */
  datatype ShipGrid = ShipGrid(ships: Option<Positions>, attacks: seq<AttackResult>, locked: bool)

  datatype View = View(
    activeBoard: Option<BoardName>,
    turnModalText: string,
    turnModalVisible: bool,
    positionModalVisible: bool,
    disableAttacks: bool,
    enemyShips: map<string, bool>,
    attackGrid: AttackGrid,
    shipGrid: ShipGrid,
    timers: seq<Timer>
  )

  /** Whose turn it is, as the turn indicator presents it. */
  datatype TurnView = TurnView(board: BoardName, text: string, attacksEnabled: bool)

  /** The reference presentation of a turn. */
  function TurnFor(myTurn: bool): TurnView {
    if myTurn then TurnView(AttackBoard, YourTurnText, true)
    else TurnView(ShipBoard, EnemyTurnText, false)
  }

  /** `v` shows turn `t` with the turn modal up. */
  predicate Announces(v: View, t: TurnView) {
    && v.activeBoard == Some(t.board)
    && v.turnModalText == t.text
    && v.turnModalVisible
    && v.attackGrid.enabled == t.attacksEnabled
    && v.disableAttacks == !t.attacksEnabled
  }

  /** Everything but the turn indicator is as in `v`. */
  predicate SameApartFromTurn(v: View, w: View) {
    && w.positionModalVisible == v.positionModalVisible
    && w.enemyShips == v.enemyShips
    && w.attackGrid.attacks == v.attackGrid.attacks
    && w.shipGrid == v.shipGrid
  }

  // ---------------------------------------------------------------------------
  // Steps
  // ---------------------------------------------------------------------------

  /** The ship grid is locked when the board, its positions and `valid` are all present. */
  predicate ShipGridLocked(player: Player) {
    player.board.Some? && player.board.value.positions.Some? && player.board.value.valid
  }

  /** The component's initial state together with the first effect: both
      grids are created and the enemy ships reset. Reading `opponent.attacks`
      needs an opponent. */
  function Mount(p: Props): (r: View)
    requires p.opponent.Some?
    ensures r.shipGrid.locked <==> (p.player.board.Some? && p.player.board.value.positions.Some? && p.player.board.value.valid)
    ensures r.attackGrid.enabled <==> r.shipGrid.locked
    ensures r.shipGrid.ships == if p.player.board.Some? then p.player.board.value.positions else Some(DefaultShips)
    ensures r.attackGrid.attacks == p.player.attacks && r.shipGrid.attacks == p.opponent.value.attacks
    ensures r.enemyShips.Keys == ShipKinds && forall k | k in r.enemyShips :: !r.enemyShips[k]
    ensures r.activeBoard.None? && !r.turnModalVisible && !r.positionModalVisible && r.timers == []
  {
    var locked := ShipGridLocked(p.player);
    View(
      None, "", false, false, false, AllAfloat,
      AttackGrid(locked, p.player.attacks),
      ShipGrid(if p.player.board.Some? then p.player.board.value.positions else Some(DefaultShips), p.opponent.value.attacks, locked),
      [])
  }

  /** Set the turn indicator and schedule the modal to hide. */
  function Announce(v: View, myTurn: bool): (r: View)
    ensures Announces(r, TurnFor(myTurn))
    ensures SameApartFromTurn(v, r)
    ensures r.timers == v.timers + [HideTurnModal]
  {
    if myTurn then
      v.(turnModalText := YourTurnText, attackGrid := v.attackGrid.(enabled := true), disableAttacks := false,
         activeBoard := Some(AttackBoard), turnModalVisible := true, timers := v.timers + [HideTurnModal])
    else
      v.(turnModalText := EnemyTurnText, attackGrid := v.attackGrid.(enabled := false), disableAttacks := true,
         activeBoard := Some(ShipBoard), turnModalVisible := true, timers := v.timers + [HideTurnModal])
  }

  /** The result as recorded: `position` is `{x: origin[0], y: origin[1]}`. */
  function Positioned(res: AttackResult): (r: AttackResult)
    ensures r.position == Some(Coord(res.origin.x, res.origin.y))
    ensures r.(position := res.position) == res
  {
    res.(position := Some(Coord(res.origin.x, res.origin.y)))
  }

  /** The result effect can run: marking a destroyed enemy ship needs its
      name to be one of the tracked ships. */
  predicate UpdateDefined(v: View, p: Props) {
    (p.result.Some? && p.result.value.destroyed && p.player.uuid != p.matchState.activePlayer) ==>
      p.result.value.kind in v.enemyShips
  }

  /** The effect that runs when the result, attacker, player or match changes. */
  function OnUpdate(v: View, p: Props): (r: View)
    requires UpdateDefined(v, p)
    // no result, match not ready: only the ship board is shown
    ensures p.result.None? && !p.matchState.ready ==> r == v.(activeBoard := Some(ShipBoard))
    // no result, match ready: announce whose turn it is
    ensures p.result.None? && p.matchState.ready ==>
      Announces(r, TurnFor(p.player.uuid == p.matchState.activePlayer)) &&
      SameApartFromTurn(v, r) && r.timers == v.timers + [HideTurnModal]
    // a result is recorded on the attack grid iff the player attacked ...
    ensures p.result.Some? ==>
      ((r.attackGrid.attacks == v.attackGrid.attacks + [Positioned(p.result.value)] && r.shipGrid.attacks == v.shipGrid.attacks)
        <==> p.attacker == p.player.uuid)
    // ... and on the ship grid otherwise
    ensures p.result.Some? ==>
      ((r.shipGrid.attacks == v.shipGrid.attacks + [Positioned(p.result.value)] && r.attackGrid.attacks == v.attackGrid.attacks)
        <==> p.attacker != p.player.uuid)
    // an enemy ship is marked destroyed only when the player is not the active player
    ensures p.result.Some? && p.result.value.destroyed && p.player.uuid != p.matchState.activePlayer ==>
      r.enemyShips == v.enemyShips[p.result.value.kind := true]
    ensures !(p.result.Some? && p.result.value.destroyed && p.player.uuid != p.matchState.activePlayer) ==>
      r.enemyShips == v.enemyShips
    // the turn indicator is untouched until the settle step ...
    ensures p.result.Some? ==>
      r.activeBoard == v.activeBoard && r.turnModalText == v.turnModalText && r.turnModalVisible == v.turnModalVisible &&
      r.attackGrid.enabled == v.attackGrid.enabled && r.disableAttacks == v.disableAttacks &&
      r.positionModalVisible == v.positionModalVisible && r.shipGrid.locked == v.shipGrid.locked
    // neither grid changes other than by the appended entry
    ensures p.result.Some? ==>
      r.shipGrid.(attacks := v.shipGrid.attacks) == v.shipGrid && r.attackGrid.(attacks := v.attackGrid.attacks) == v.attackGrid
    // ... which is scheduled with this render's turn
    ensures p.result.Some? ==> r.timers == v.timers + [Settle(p.player.uuid == p.matchState.activePlayer)]
  {
    match p.result
    case None =>
      if !p.matchState.ready then v.(activeBoard := Some(ShipBoard))
      else Announce(v, p.player.uuid == p.matchState.activePlayer)
    case Some(res) =>
      var shot := Positioned(res);
      var recorded :=
        if p.attacker == p.player.uuid then v.(attackGrid := v.attackGrid.(attacks := v.attackGrid.attacks + [shot]))
        else v.(shipGrid := v.shipGrid.(attacks := v.shipGrid.attacks + [shot]));
      var myTurn := p.player.uuid == p.matchState.activePlayer;
      var marked :=
        if res.destroyed && !myTurn then recorded.(enemyShips := recorded.enemyShips[res.kind := true])
        else recorded;
      marked.(timers := marked.timers + [Settle(myTurn)])
  }

  /** `s` without its element at `i`. */
  function RemoveAt<T>(s: seq<T>, i: nat): (r: seq<T>)
    requires i < |s|
    ensures |r| == |s| - 1
    ensures forall j :: 0 <= j < i ==> r[j] == s[j]
    ensures forall j :: i <= j < |r| ==> r[j] == s[j + 1]
  {
    s[..i] + s[i + 1..]
  }

  /** The settle callback fires: the turn is announced from the turn the
      scheduling render saw; `match.ready` is not consulted again. */
  function OnSettle(v: View, i: nat): (r: View)
    requires i < |v.timers| && v.timers[i].Settle?
    ensures Announces(r, TurnFor(v.timers[i].myTurn))
    ensures SameApartFromTurn(v, r)
    ensures r.timers == RemoveAt(v.timers, i) + [HideTurnModal]
  {
    Announce(v.(timers := RemoveAt(v.timers, i)), v.timers[i].myTurn)
  }

  /** A hide callback fires: the modal it belongs to is hidden, whichever
      announcement is showing. */
  function OnHide(v: View, i: nat): (r: View)
    requires i < |v.timers| && !v.timers[i].Settle?
    ensures v.timers[i].HideTurnModal? ==> r == v.(turnModalVisible := false, timers := RemoveAt(v.timers, i))
    ensures v.timers[i].HidePositionModal? ==> r == v.(positionModalVisible := false, timers := RemoveAt(v.timers, i))
  {
    var rest := RemoveAt(v.timers, i);
    if v.timers[i].HideTurnModal? then v.(turnModalVisible := false, timers := rest)
    else v.(positionModalVisible := false, timers := rest)
  }

  /** The effect that runs when the player's board changes: the position
      modal is hidden iff the board is valid, and otherwise shown and
      scheduled to hide. */
  function OnBoardChange(v: View, board: Option<Board>): (r: View)
    ensures !r.positionModalVisible <==> (board.Some? && board.value.valid)
    ensures r.timers == if r.positionModalVisible then v.timers + [HidePositionModal] else v.timers
    ensures r.(positionModalVisible := v.positionModalVisible, timers := v.timers) == v
  {
    if board.Some? && board.value.valid then v.(positionModalVisible := false)
    else v.(positionModalVisible := true, timers := v.timers + [HidePositionModal])
  }

  /** The opponent effect can run: every key of a revealed board is a tracked ship. */
  predicate OpponentDefined(v: View, opponent: Option<Opponent>) {
    opponent.Some? && opponent.value.board.Some? ==> opponent.value.board.value <= v.enemyShips.Keys
  }

  /** The effect that runs when the opponent changes: every ship of a
      revealed opponent board is marked destroyed. */
  function OnOpponent(v: View, opponent: Option<Opponent>): (r: View)
    requires OpponentDefined(v, opponent)
    ensures opponent.None? || opponent.value.board.None? ==> r == v
    ensures r.enemyShips.Keys == v.enemyShips.Keys
    ensures opponent.Some? && opponent.value.board.Some? ==>
      forall k | k in r.enemyShips :: r.enemyShips[k] <==> (v.enemyShips[k] || k in opponent.value.board.value)
    ensures r.(enemyShips := v.enemyShips) == v
  {
    if opponent.None? || opponent.value.board.None? then v
    else
      var keys := opponent.value.board.value;
      v.(enemyShips := map k | k in v.enemyShips :: v.enemyShips[k] || k in keys)
  }

  /** The ship grid was locked by the player: the attack grid is enabled and
      the ships are handed on, unchanged, to be sent to the server. */
  function OnShipGridLocked(v: View, ships: Positions): (r: (View, Positions))
    ensures r.0.attackGrid.enabled
    ensures r.0.(attackGrid := v.attackGrid) == v && r.0.attackGrid.attacks == v.attackGrid.attacks
    ensures r.1 == ships
  {
    (v.(attackGrid := v.attackGrid.(enabled := true)), ships)
  }
}
