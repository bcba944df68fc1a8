# Decision engine of a screen-reading combat bot

The modelled system is a Python bot for a 3D action game. It reads the screen: it detects
enemies on the minimap and on screen, reads the health and mana bars, and notices yellow
damage numbers near the character. It then holds movement and attack keys through a virtual
keyboard. This project models the bot's decision and behaviour engine in `script.py`:

- `MovementMemory` (orbit detection and correction);
- `MobBlacklist` (expiring ignore zones for ghost targets);
- `GameState` (health sanitising and the variance window);
- the decision part of `manage_status` (potions and the coarse damage flag);
- the nearest-candidate loops of `get_map_target` and `get_screen_target`;
- `update_keys`;
- one cycle of the main loop of `process_bot`.

Every component whose fields the source updates in place is a class with the same fields.
This covers the three source classes and the keyboard. It also covers the bot itself, whose
loop-local and module-level state (`is_attacking`, the stuck and escape timers,
`current_panic_dir`, `potion_timers`, `hp_history`, …) become fields of `Bot.Bot` and
`Status.StatusTracker`. The pure parts are functions: the key label, the correction keys,
target priority, steering keys and pursuit.

Modelling choices:

- Time is a `real` number of seconds, passed in as `now`.
- Each random draw of a cycle is a field of a `Choices` value constrained to the source's
  range.
- The vision layer is a `Perception` value: the two bar percentages, the damage-number flag,
  and each detector's candidate offsets.
- Distances are compared squared on integers: `sqrt(dx²+dy²) < r` is `dx²+dy² < r²`, and the
  `9999` sentinel becomes `9999²`.

Files, one module each:

| file | module | source |
|---|---|---|
| `util.dfy` | `Util` | squared distance, bounded deque (`deque(maxlen=n)`) |
| `keys.dfy` | `Keys` | key names, `"+".join(sorted(keys))` labels, `"+" in k and "space" not in k` |
| `orbit.dfy` | `Orbit` | `MovementMemory` |
| `blacklist.dfy` | `Blacklist` | `MobBlacklist` |
| `health.dfy` | `Health` | `GameState`, `round(…, 1)`, `np.var` |
| `status.dfy` | `Status` | `manage_status` |
| `targeting.dfy` | `Targeting` | `get_map_target`, `get_screen_target`, source priority, pursuit keys |
| `actuation.dfy` | `Actuation` | `update_keys` |
| `bot.dfy` | `Bot` | `process_bot` |

Behaviour of the code that the model keeps, and proves where it can be stated:

- Nothing ever sets `stuck_phase` to 1. The only assignments are 0 at start, 0 on combat
  activity, and 2→3→0 inside the stuck branch. So the stuck routine is unreachable.
  `Bot.Bot.Cycle` keeps a zero stuck phase at zero, and the branch itself is modelled in
  `Bot.Bot.StuckStep`. When phase 3 ends, the code returns to phase 0, not to phase 1.
- `activate_correction` runs on every FIX_ORBIT cycle and pushes `lock_end_time` to 1.5 s
  after that cycle. So while a target stays in sight and no hit lands, the lock never
  expires. `Bot.Bot.Cycle` states this: a locked bot with a target and no hit is in
  FIX_ORBIT and still locked.
- `last_hp_check_time` is set once when the module loads and never updated. After the first
  0.5 s, every cycle's reading enters the 4-entry window. That means one sample per cycle,
  not one per 0.5 s.
- Ghost detection resets `last_successful_hit_time` but not `no_hit_duration`. The timer is
  recomputed from the reset time in the next cycle.
- EXPLORING starts in the first cycle without a target and without damage. There is no
  waiting period.
- The orbit check runs before ghost detection, as in the code.

## Model

| member | source | states |
|---|---|---|
| Util.DistSq | script.py:279-280 | the squared distance of an offset is non-negative; comparing it with a squared bound stands for the `math.sqrt` comparison |
| Util.AbsReal | script.py:179 | `abs` is non-negative and equals the argument or its negation |
| Util.KeepLast | script.py:77 | a `deque(maxlen=n)` fed with `s` holds at most `n` entries, all of `s` when it fits, otherwise exactly the last `n` of `s` |
| Util.KeepLastPush | script.py:77 | appending to a bounded window drops exactly the oldest entry when the window is full, and nothing otherwise |
| Keys.RankIsStringOrder | script.py:87 | sorting keys by rank is the same as sorting their names as strings, so the label matches Python's `sorted` |
| Keys.SortKeys | script.py:87 | `sorted(keys)` is sorted and a permutation of its input |
| Keys.Insert | script.py:87 | one insertion step of the sort adds exactly the inserted key |
| Keys.InsertSorted | script.py:87 | inserting into a sorted list keeps it sorted |
| Keys.SortedUnique | script.py:86-87 | two sorted lists with the same keys are equal, so the sorted form is canonical |
| Keys.LabelIgnoresOrder | script.py:86-87 | key lists with the same keys get the same history label, whatever their order |
| Keys.Joined | script.py:87 | `"+".join` of the names starts with the first name's letter and contains `+` exactly when it joins two or more names |
| Keys.Label | script.py:82-87 | the entry is `none` exactly for an empty key list; otherwise it contains `+` exactly when two or more keys were held |
| Keys.Contains | script.py:109 | Python's `in` on strings: a match needs at least as many characters as the pattern |
| Keys.ContainsIsSubstring | script.py:109 | `Contains` holds exactly when the pattern occurs at some index of the string |
| Keys.IsDiagonal | script.py:109 | an entry counted as diagonal contains `+`, so the `none` entry is never diagonal |
| Keys.ContainsPrepend | script.py:109 | a substring of a string is also a substring of any extension of it on the left |
| Keys.SpaceInJoined | script.py:87 | a label of a list holding the attack key contains `space` |
| Keys.LetterPInJoined | script.py:87 | a `p` in a label can only come from the attack key's name, so a label without it never contains `space` |
| Keys.DiagonalLabel | script.py:109 | a key list's label counts as diagonal exactly when the list has two or more keys and no attack key |
| Orbit.CountDiagonal | script.py:107-110 | the diagonal count of a history is at most its length |
| Orbit.OrbitVerdict | script.py:89-116 | a landed hit never signals an orbit; a held lock always does when no hit lands; without a lock an orbit needs at least 40 entries, more than 30 of them diagonal |
| Orbit.CorrectionKeys | script.py:123-131 | the correction has at most two keys; it holds the attack key exactly when it was intended, and then last; it holds a movement key exactly when one was intended, and that key is the intended one earliest in w, s, a, d |
| Orbit.CorrectionIsNotDiagonal | script.py:123-131 | a correction is never itself recorded as diagonal movement |
| Orbit.CorrectionHasNoOpposingKeys | script.py:123-128 | a correction never holds two opposite movement keys |
| Orbit.AllDiagonalCount | script.py:107-110 | in a history of diagonal entries, every entry is counted |
| Orbit.DiagonalStrafingIsOrbit | script.py:104-114 | 40 or more diagonal records without a hit are judged an orbit |
| Orbit.MovementMemory.constructor | script.py:76-80 | empty history, unlocked, lock end 0, no lock keys |
| Orbit.MovementMemory.LogKeys | script.py:82-87 | the label of the cycle's keys is appended to the 60-entry window |
| Orbit.MovementMemory.CheckOrbitDance | script.py:89-116 | returns the verdict of `OrbitVerdict` on the old state: false on a hit, true while locked, else history ≥ 40 and more than 30 diagonal entries. A hit clears the history and the lock. An expired lock is released with its history, still answering true for that call. Otherwise nothing changes |
| Orbit.MovementMemory.ActivateCorrection | script.py:118-134 | locks until 1.5 s after `now` and returns and stores `CorrectionKeys` of the intended keys |
| Blacklist.Near | script.py:153-154 | the radius-15 test on squared integers; a zone always covers its own position |
| Blacklist.NearIsWithinRadius | script.py:153-154 | a zone matching the squared-radius test lies within 15 of the point along each axis |
| Blacklist.AnyNear | script.py:152-155 | the query answers true exactly when some zone in the list is near the point, independent of the order of the zones |
| Blacklist.Survivors | script.py:150 | the cleanup keeps exactly the zones that expire after `now` |
| Blacklist.SurvivorsKeepOrder | script.py:150 | the cleanup keeps the zones' order and distributes over concatenation |
| Blacklist.SurvivorsIdempotent | script.py:150 | cleaning up twice at the same time removes nothing more |
| Blacklist.AddedZoneIsIgnored | script.py:141-154 | a zone just added makes its own position ignored in every query during the next 8 s |
| Blacklist.ExpiredZonesAreForgotten | script.py:147-155 | once every zone near a point has expired, the point is not ignored |
| Blacklist.MobBlacklist.constructor | script.py:138-139 | no zones |
| Blacklist.MobBlacklist.AddIgnore | script.py:141-144 | appends a zone expiring `fade` (8 to 10) seconds after `now` |
| Blacklist.MobBlacklist.IsIgnored | script.py:147-155 | purges expired zones, then answers whether a surviving zone is within radius 15 |
| Health.Round1 | script.py:182 | rounding to one decimal moves a value by at most 0.05 and keeps it within [0, 100] |
| Health.Normalize | script.py:182 | a reading within the ceiling normalises into [0, 100], and a reading at the ceiling to exactly 100 |
| Health.Sanitized | script.py:173-182 | with a reading within the ceiling and a window of percentages, the sanitised value is a percentage |
| Health.RepeatedReadingIsStable | script.py:179-180 | after a sanitised value is recorded, feeding the same reading again gives the same value |
| Health.SumSquaredDeviation | script.py:187 | the sum of squared deviations is non-negative |
| Health.Variance | script.py:187 | the population variance is non-negative |
| Health.SumOfConstant | script.py:187 | the sum of a constant window is its length times the constant |
| Health.NoDeviationFromConstant | script.py:187 | a constant window deviates nowhere from its constant |
| Health.ConstantWindowHasNoVariance | script.py:187 | a steady window has variance 0 |
| Health.GameState.constructor | script.py:169-171 | empty window, ceiling 0 |
| Health.GameState.SanitizeHp | script.py:173-182 | the ceiling never decreases and is at least the reading; the result is `Sanitized` at the new ceiling and is a percentage for a non-negative reading and a window of percentages |
| Health.GameState.CalculateMetrics | script.py:184-188 | the sample enters the 40-entry window; the variance is reported only with more than 5 samples and is never negative; a sample in [0, 100] added to a window within [0, 100] keeps the window within [0, 100] |
| Status.MaxOf | script.py:234 | `max` is an element of the window and bounds every element |
| Status.TakingDamage | script.py:232-235 | damage is flagged exactly when some window reading is more than 3 above the current one |
| Status.SteadyHealthScenario | script.py:228-243 | readings 80, 80, 79, 80 fed through `ManageStatus` one second apart on a fresh tracker: no call flags damage and no call presses a potion |
| Status.StatusTracker.constructor | script.py:62-65 | both potion timers at 0, empty window, `last_hp_check_time` fixed at load time |
| Status.StatusTracker.ManageStatus | script.py:221-245 | the window grows only when 0.5 s have passed since load time; the damage flag is `TakingDamage`; F1 exactly when health < 70 and its timer has passed, F2 exactly when mana < 20 and its timer has passed; each pressed timer moves to `now` + 1.0 or 1.5 s |
| Targeting.Nearest | script.py:280-284 | the chosen detection is the sentinel or a real candidate with its true squared distance below the sentinel |
| Targeting.NearestExtend | script.py:280-284 | one loop step replaces the best so far exactly when the new candidate is strictly nearer |
| Targeting.NearestIsClosest | script.py:325-329 | no candidate is nearer than the chosen one |
| Targeting.NearestIsFirst | script.py:325-329 | among equally near candidates the first is chosen |
| Targeting.Unignored | script.py:277 | the blacklist filter keeps no more candidates than it is given |
| Targeting.UnignoredMembers | script.py:277 | exactly the candidates away from every live zone pass the blacklist filter |
| Targeting.UnignoredExtend | script.py:277 | one candidate is appended to the filtered list exactly when no zone is near it |
| Targeting.IgnoredCandidateIsNotChosen | script.py:277-284 | a map position inside a live zone is never the chosen map target |
| Targeting.GetScreenTarget | script.py:309-332 | the loop returns `Nearest` of the candidates |
| Targeting.MapStep | script.py:275-284 | one pass of the map loop: an ignored candidate leaves the choice unchanged, any other is kept exactly when strictly nearer |
| Targeting.GetMapTarget | script.py:263-287 | the loop returns `Nearest` of the candidates that pass the blacklist after its cleanup; the blacklist is cleaned up when at least one candidate was checked |
| Targeting.CombatRange | script.py:416-427 | for a detected target the anchor range lies strictly inside the combat range, and the screen range is the larger one |
| Targeting.AnchorRange | script.py:416-427 | for a detected target the anchor range is positive, and the screen range is the larger one |
| Targeting.Detection.Present | script.py:416-422 | a detection counts as present only when it beats the 9000 threshold, which the no-detection sentinel never does |
| Targeting.SelectTarget | script.py:412-427 | the source is the screen exactly when it detects something, the map exactly when only the map does, and the target copies that detection; with neither, nothing at the sentinel distance |
| Targeting.ScreenDetectionWins | script.py:415-421 | with a screen detection the chosen target is the screen one, whatever the map detection is |
| Targeting.DirectionKeys | script.py:523-526 | up exactly when dy < −5, down exactly when dy > 5, left exactly when dx < −5, right exactly when dx > 5; never the attack key or opposite keys |
| Targeting.Pursue | script.py:514-533 | ATK_STATIC exactly inside the anchor range, holding only attack; CHASING exactly beyond four times the combat range, without attack; COMBAT in between, attacking exactly within the combat range; otherwise the steering keys |
| Targeting.OrbitIntent | script.py:465-472 | the intended keys attack inside the anchor range or within the combat range, and otherwise steer as `DirectionKeys` |
| Targeting.OrbitIntentMatchesCombat | script.py:465-472 | in the COMBAT band the orbit-fix intent holds the same keys as COMBAT and is logged under the same label |
| Targeting.MapCombatScenario | script.py:518-526 | a map target 10 px to the right is COMBAT, holding right and attack |
| Actuation.EveryKeyIsManaged | script.py:362 | every key the bot can hold is in `all_keys`, so every key left out of the list is released |
| Actuation.Keyboard.constructor | script.py:361-365 | no key is held before the first update |
| Actuation.Keyboard.UpdateKeys | script.py:361-365 | afterwards exactly the listed keys are held |
| Bot.ValidChoices | script.py:481-540 | the random draws (and the 8-10 s fade of line 142) lie in the source's ranges; every drawn stuck, explore or panic direction is well formed |
| Bot.PanicDirectionsHaveNoOpposingKeys | script.py:508 | no panic direction holds opposite keys |
| Bot.StuckAdvance | script.py:477-493 | the phase stays or moves one step along 1→2→3→0 and never enters 1; phase 0 never changes; entering phase 3 takes the drawn direction and run time |
| Bot.StuckActivity | script.py:482-489 | the stuck branch labels only IDLE, WAIT_STUCK or RUN_STUCK, and runs only in phase 3 |
| Bot.Behaviour | script.py:477-542 | the label after the orbit fix: stuck labels exactly when the phase is above 0; BLIND_DEFENSE exactly for damage without a target; EXPLORING exactly without damage and target; SEARCHING exactly for a target while escaping; pursuit exactly for a target otherwise, with `Pursue`'s band |
| Bot.Redrawn | script.py:507-509 | a held direction (the panic one here, the explore one at lines 539-541) is kept, or replaced by the drawn one at `now`; it is always kept while the hold time has not passed |
| Bot.RedrawnIsHeld | script.py:539-542 | a freshly drawn direction survives every later cycle within the next hold time, whatever is drawn then |
| Bot.KeysFor | script.py:462-542 | with well-formed held directions, the keys of each label never hold opposite movement keys; BLIND_DEFENSE attacks and strafes left exactly on a draw below 0.3; IDLE and WAIT_STUCK hold nothing |
| Bot.ExploringAfter | script.py:496-537 | EXPLORING turns exploring on; SEARCHING and every pursuit turn it off; every other label leaves it as it was |
| Bot.AttackingAfter | script.py:496-536 | after a pursuit cycle the bot is attacking exactly when the pursuit keys hold attack; SEARCHING and EXPLORING stop attacking; BLIND_DEFENSE attacks; FIX_ORBIT and the stuck labels leave the flag as it was |
| Bot.Bot.constructor | script.py:370-392 | the loop's initial state: five fresh components (empty windows, no zones, nothing held, potion timers and ceiling at 0, no lock), no modes, stuck phase 0, empty directions, hit and monitor timers at the start time and every other timer at 0 |
| Bot.FreshBotNeverGetsStuck | script.py:477-493 | two passes from the initial state never enter the stuck routine and leave the stuck phase at 0 |
| Bot.Bot.RefreshCombat | script.py:435-446 | damage or a hit resets the timers and cancels the stuck, escape and exploring modes; the no-hit time grows only while attacking without a hit |
| Bot.Bot.DetectGhost | script.py:455-459 | a map target with more than 5 s without a hit is blacklisted with the given fade, and the bot escapes for 1.5 s; otherwise nothing changes |
| Bot.Bot.StuckStep | script.py:477-493 | phase 1 waits 4 s before phase 2; phase 2 (WAIT_STUCK) waits for its end, then draws the run time and direction; phase 3 (RUN_STUCK) runs that direction until its end, then returns to 0 |
| Bot.Bot.SearchStep | script.py:504-511 | SEARCHING holds a panic direction redrawn only after 0.4 s, without attacking, and leaves escape mode once its time has passed |
| Bot.Bot.ExploreStep | script.py:535-542 | EXPLORING holds a single direction, redrawn only after the drawn window, without attacking |
| Bot.Bot.EngageStep | script.py:501-533 | with a target in sight: SEARCHING while escaping, with the panic direction redrawn only after 0.4 s and the escape ended once its time has passed; otherwise the pursuit keys and attack flag of `Pursue`, with the panic direction untouched |
| Bot.Bot.Behave | script.py:477-542 | the label is `Behaviour` of the old stuck phase, target, damage and escape state; the keys are `KeysFor` it and never opposite; the stuck routine moves by `StuckAdvance`; the panic and explore directions are `Redrawn` exactly in SEARCHING and EXPLORING and untouched otherwise; the attack, escape and exploring flags follow the label |
| Bot.Bot.Decide | script.py:462-542 | FIX_ORBIT exactly when an orbit is flagged with a target, holding `CorrectionKeys` of `OrbitIntent` and re-locking for 1.5 s with those keys, the stuck routine untouched; otherwise the lock is untouched and every clause of `Behave` holds |
| Bot.Bot.Perceive | script.py:406-433 | the target is `SelectTarget` of both `Nearest` detections after the blacklist cleanup; the blacklist is cleaned up exactly when a map candidate was checked; potion presses and the new timers as `ManageStatus`; the coarse window; real damage is the coarse flag or variance above 2.0; the ceiling rises to the reading and never falls; health sanitised and recorded in the 40-entry window |
| Bot.Bot.Assess | script.py:435-459 | the orbit verdict on the old memory; the history and lock cleared by a hit and released when expired; a ghost exactly when a map target was attacked for more than 5 s without a hit, appending its zone; the combat timers, no-hit time, stuck phase, escape and exploring flags as the source resets them |
| Bot.Bot.Record | script.py:545-546 | the cycle's label enters the 60-entry history window and exactly its keys are held |
| Bot.Bot.Respond | script.py:462-546 | the clauses of `Decide`, with the history window extended by the cycle's label, exactly its keys held, and the timers and blacklist untouched |
| Bot.Bot.Act | script.py:435-546 | the clauses of `Assess` and `Respond` composed: the label is `Behaviour` of the stuck phase and escape state after the combat reset and ghost check, the new history window is the one left by the orbit check plus the cycle's label, and every timer, flag and direction is stated |
| Bot.Bot.Cycle | script.py:402-546 | one loop pass, stating the whole new state: target priority, potion presses and timers, the coarse window, the damage signal, the health ceiling and window, the orbit verdict and the new history window, FIX_ORBIT exactly on orbit with a target and the lock kept while a target stays without a hit, ghost blacklisting and the SEARCHING that follows, BLIND_DEFENSE, pursuit or EXPLORING by `Behaviour`, redrawn directions, no stuck phase from phase 0, no opposite keys, and exactly the logged keys held |

## Left out

- Image capture and colour masks are not modelled: `mss` grabs, `cv2` masks, dilation,
  contour extraction, moment and bounding-box centroids, area filters, `get_hp_exact` and
  `get_sp_percent`, and `detect_damage_numbers`. Their results are the fields of
  `Perception`, with each detector's candidates in contour order.
- Keyboard and device I/O is not modelled: `pydirectinput` calls, the 0.05 s press in
  `press_key_safe`, the potion key presses (reported as booleans), the F10 exit poll and
  `cv2.destroyAllWindows`. `Actuation.Keyboard` models the held keys as a set.
- Comparisons use squared integers instead of `math.sqrt`. For non-negative bounds the two
  are equivalent, so no branch changes; the reported distance itself is squared.
- Floating point is not modelled. Values are exact reals, `np.var` is exact population
  variance, and `round(x, 1)` is rounded half up, not Python's round-half-to-even on binary
  floats.
- `Health.Round1`: differs from Python only on exact ties, for the reason above.
- `Bot.Bot.Cycle`: one `now` serves the whole cycle. The source reads `time.time()` several
  times per cycle. Those readings can differ by the 0.05 s key-press sleeps (potion presses in
  `manage_status`, the pickup press between the ghost check and the branch chain) plus the
  screen-capture time, so 0.1 s or more. The model treats them as one instant; no threshold
  compared within one cycle is that small (the escape set in a cycle ends 1.5 s later).
- `manage_pickup` is not modelled. It presses a pickup key on a timer or on visible item
  text; none of the decision state reads it.
- `GameLogger`, the console prints, the 0.2 s print throttle and the 25 ms pacing sleep are
  I/O only and are not modelled.
- The broad `except Exception` around the cycle body is not modelled. The model's
  operations do not fail: no index or key error is possible in the modelled code.
- `hitting_air` and `last_combat_activity_time` are written but never read.
  `last_combat_activity_time` is kept as a field; `hitting_air` is dropped.
- `MAP_ATTACK_RANGE` is never used by the code.
- `calculate_map.py` is not part of this model. It is an offline helper, not the decision
  engine.
- When no target is present, `combat_range` and `anchor_range` keep whatever an earlier
  target set (or stay unassigned before the first one). The code never reads them in that case, so `CombatRange(Nada)` and `AnchorRange(Nada)` are
  placeholders that no branch uses.
