# Battleship client: wire protocol and turn presentation

This project models two pieces of pure logic from the browser client of a
two-player Battleship game.

- **The socket module** (`Socket`, on top of `Js` and `Wrappers`). The
  inbound router turns an already-parsed envelope `{type, data}` into at most
  one store action. The outbound builders produce the `connection` handshake,
  `ship-positions` and `attack` frames. The handshake rule decides whether the
  stored identity is sent. The connection handlers keep a retry counter that
  is reset on open and on close and is never incremented.
- **The board component's effects** (`Battleship`, `BattleshipRuns`). From the
  match, the player, the opponent, the last attack result and the attacker,
  the component derives a `View`:
  - which board is visible;
  - the turn modal's text and visibility, and whether attacks are enabled;
  - which grid an attack result is recorded on;
  - the position modal;
  - the per-enemy-ship `destroyed` flags.

  Each effect body is a step function. The delayed callbacks are pending
  `Timer`s that fire through explicit `OnSettle` and `OnHide` steps.
  `BattleshipRuns` composes the steps into arbitrary runs and proves what
  holds along every run.

JavaScript values are the datatype `Js.Value`. Truthiness and property reads
follow the language: reading a property of `null` or `undefined` throws a
`TypeError`, modelled as an `Err` result. A player id is missing
(`undefined`), `null`, or a string. Equality of these three cases matches the
source's `===` for such values: `null === undefined` is false.

Behaviour of the code worth noting:
- No reconnection is attempted. `onclose` resets the counter and starts a
  timer that does nothing.
- The router knows only `configuration`, `attack-result`, `invalid-payload`
  and `server-error`. In particular, `game-state`, `bonus-result`,
  `score-update` and `bad-attack` are ignored.
- Timers are never cancelled. An older hide callback can hide a newer
  announcement. A burst of results schedules one settle step per result.
- The settle step announces the turn from the player and match captured when
  it was scheduled. It does not re-check `match.ready`.

## Model

| member | source | states |
|---|---|---|
| Socket.Route | src/socket.js:19-53 | A `configuration` or `attack-result` frame yields exactly that action carrying `data` unchanged. `invalid-payload` shows `data.info` and throws exactly when `data` is null or undefined. `server-error` shows the constant "Server error" whatever its data. A frame yields no action *without throwing* iff its type is not in the dispatch table. A dispatched action's kind is the table's entry for the frame type. |
| Socket.UnroutedServerTypes | src/socket.js:52-53 | `game-state`, `bonus-result`, `bad-attack`, `score-update` and unknown types all fall to the no-op default. |
| Socket.Dispatched | src/socket.js:19-54 | A frame stream dispatches at most one action per frame. It dispatches one for every frame iff every frame is routed without throwing and is recognised. |
| Socket.AttackResultsInArrivalOrder | src/socket.js:31-36 | The ATTACK_RESULT payloads dispatched for any frame stream are exactly the data of its `attack-result` frames, in arrival order. |
| Socket.HandshakeData | src/socket.js:74-80 | The handshake carries the stored record itself when `gameId`, `playerId` and `username` are all truthy, and `{}` otherwise. Reading a null or undefined record throws. |
| Socket.ConfigurationFrame | src/socket.js:69-89 | Without a socket nothing is sent. Otherwise exactly one frame of type `connection` carries the handshake data, unless reading the stored record throws. |
| Socket.ShipPositionsFrame | src/socket.js:91-102 | Without a socket nothing is sent. Otherwise the `ship-positions` frame carries `payload.board`, and a null or undefined payload throws. |
| Socket.AttackFrame | src/socket.js:104-116 | A frame is sent iff a socket exists. The `attack` frame carries the payload unchanged. |
| Socket.EchoedFramesAreIgnored | src/socket.js:83-116 | Every `connection`, `ship-positions` or `attack` frame the client builds would dispatch nothing if it were fed back to the router. So a local attack is applied only through the server's `attack-result`. |
| Socket.OnEvent | src/socket.js:14-66 | Open resets the counter, changes nothing else in the connection state, and sends exactly the handshake frame built from the identity stored at that moment. A message dispatches exactly what the router yields. Close resets the counter and starts one more no-op interval. Errors do nothing. No handler increments the counter. |
| Socket.RetryCounterStaysZero | src/socket.js:8-62 | From counter 0, the counter is 0 after any sequence of socket events. The number of live no-op intervals equals the number of closes; none is cleared. |
| Socket.RunDispatchesReceivedFrames | src/socket.js:19-66 | Over any sequence of socket events, the dispatched actions are exactly those routed from the received frames, in order. Open, close and error dispatch nothing. |
| Socket.PlayAgain | src/socket.js:118-120 | `playAgain` sends a frame iff the on-open handshake does, and it is the same frame. |
| Battleship.Mount | src/components/Battleship/Battleship.js:58-120 | The ship grid is locked iff the board, its positions and `valid` are all present. The attack grid is enabled iff the ship grid is locked. The grids start from the player's and the opponent's attacks. The ship grid shows the board's positions, or the default ships when there is no board. All four enemy ships start not destroyed. Both modals start hidden. |
| Battleship.Announce | src/components/Battleship/Battleship.js:133-149 | The view shows the reference turn for the player, with the modal visible. A hide callback is scheduled. Nothing else changes. |
| Battleship.Positioned | src/components/Battleship/Battleship.js:154-157 | The recorded result's `position` is `{x: origin[0], y: origin[1]}`. Its other fields are the result's. |
| Battleship.OnUpdate | src/components/Battleship/Battleship.js:124-202 | Without a result and before the match is ready, only `activeBoard` changes, to "ship". Without a result and with the match ready, the turn is announced as "Your turn" (attacks enabled, attack board) or "Enemy's turn" (attacks disabled, ship board), depending on `player.uuid == match.activePlayer`. A result is appended to the attack grid iff `attacker == player.uuid`, and to the ship grid otherwise. A destroyed result sets exactly that enemy ship's flag iff the player is not the active player; otherwise `enemyShips` is unchanged. Neither grid changes apart from the appended entry. The turn indicator is untouched until a settle step is scheduled with this render's turn. |
| Battleship.OnSettle | src/components/Battleship/Battleship.js:182-200 | Firing a settle timer announces the turn it captured, whatever the match's readiness now. It schedules the modal's hide. Nothing else changes. |
| Battleship.OnHide | src/components/Battleship/Battleship.js:147-149 | Firing a hide timer (also the ones at lines 197-199 and 212-214) hides its modal, whichever announcement it is showing. The timer is removed. Nothing else changes. |
| Battleship.OnBoardChange | src/components/Battleship/Battleship.js:206-216 | The position modal is hidden iff the board is present and valid. Otherwise it is shown and a hide is scheduled. Nothing else changes. |
| Battleship.OnOpponent | src/components/Battleship/Battleship.js:218-228 | With no opponent or no opponent board, the view is unchanged. Otherwise each tracked ship is destroyed iff it already was or it is a key of the opponent's board. The tracked ships stay the same. Nothing else changes. |
| Battleship.OnShipGridLocked | src/components/Battleship/Battleship.js:230-233 | A board-lock event enables the attack grid, changes nothing else, and forwards the ships unchanged. |
| BattleshipRuns.FlagsOnlyRise | src/components/Battleship/Battleship.js:170-177 | Over any run of effects and callbacks (marking at line 172 and at lines 223-225), no destroyed flag goes back to false and the set of tracked ships never changes. |
| BattleshipRuns.MountedRunTracksShipKinds | src/components/Battleship/Battleship.js:63-76 | After mounting, every run keeps exactly the four tracked ships. So a result can be marked iff it names one of them. |
| BattleshipRuns.HistoriesAppendOnly | src/components/Battleship/Battleship.js:159-166 | Over any run, both grids' attack histories only grow by appending. Together they gain exactly one entry per run of the result effect that carries a result. A re-run caused by a change of `player` or `match` records the same result again. |
| BattleshipRuns.PositionModalShownThenHidden | src/components/Battleship/Battleship.js:209-215 | With no valid board, the position modal is shown, and firing the hide it schedules closes it. |
| BattleshipRuns.NullIdIsNotMissingId | src/components/Battleship/Battleship.js:162-166 | A player whose id is `null` does not count as the attacker of a result whose attacker is missing. The result is recorded on the ship grid only. |
| BattleshipRuns.SettleAgreesWithAnnouncement | src/components/Battleship/Battleship.js:180-200 | The settle step scheduled by a result announces the turn of the render that saw the result. When the match is ready, that is the same board, text, enablement and visibility as the no-result path at lines 133-145. |

## Left out

- WebSocket construction, the hard-coded URL and `onerror`'s empty body are not modelled. The socket's existence is a boolean, and send failures are not modelled.
- The `setInterval` started by `onclose` has an empty body. It is modelled only as a count of intervals that are never cleared; there is no reconnection policy to model.
- `JSON.parse` and `JSON.stringify` are not modelled: frames are already-parsed values. The throw on a malformed frame is out of scope.
- `getLocalStorage` and the redux store are not part of this model. The stored identity is an input, and dispatched actions are return values. The store's reducers, including the idempotence of `configuration`, are not modelled.
- Timer durations (1500 ms and 1000 ms) are not modelled. Pending timers may fire in any order, which covers every schedule the real clock allows.
- The grid widgets are not part of this model. `recordAttack` and `incomingAttack` append to the grids' histories. `attackGrid.enabled` is a field. `board.rows`/`board.columns` are not modelled.
- `alert`, the DOM event listeners, JSX rendering and CSS classes are not modelled. The attack-request handler (lines 235-237) only forwards its event to an action creator that is not part of this model.
- Battleship.OnUpdate: a destroyed result that names a ship outside the four tracked ones makes the source throw. This is a precondition, `UpdateDefined`, rather than modelled behaviour. The same holds for opponent board keys in `OnOpponent`, via `OpponentDefined`.
- Battleship.Mount: the source throws when the opponent is null. This is a precondition.
- Battleship.Positioned: the origin is a two-element coordinate. A shorter origin array is not modelled.
- Battleship.OnUpdate: each step is one run of the effect. When React re-runs it (a change of result, attacker, player or match) is not modelled.
- Player ids are only ever missing, `null` or strings. Numeric or object ids are not modelled.
- JavaScript numbers are integers here; floating point, `NaN` and `-0` are not modelled. Property reads see only own fields of objects, and not prototype members such as `length`.
- `src/components/GameOver/GameOver.js` (view selection and `fetch` I/O) and `src/components/Header/Header.js` (cosmetic) are not modelled.
