# KeibaOps core in Dafny

KeibaOps is a horse-racing management game with pari-mutuel betting. The
model covers the services that make up its game core:

- **Horse population** (`population.dfy`, PopulationManagerService). It
  generates 1000 horses, with class, speed and the other stats drawn from
  fixed distributions. It selects the entrants for a race by class,
  activity, fatigue and rest time, then shuffles and takes them. Every
  hundredth tick the whole population recovers from fatigue.
- **Race engine** (`race_engine.dfy`, `race_tick.dfy`, `race_formulas.dfy`,
  RaceEngineService). It holds a current race and a queue of three upcoming
  races, each generated from a random card. The player can register a
  horse in the next race; a full field drops its last entrant. The
  200-tick voting phase is followed by the running phase, a tick-by-tick
  simulation. Each tick moves every horse by its pace curve, its stamina,
  its position in the field, slipstream, ease-off, corners, blocking,
  evasion and outside loss. When everyone has finished, the race closes:
  careers are updated, the winner is promoted and paid, and the queue
  advances.
- **Odds market** (`odds_market.dfy`, OddsMarketService). It seeds win and
  place pools in proportion to each entrant's strength, sized by the
  race's grade and class. Synthetic bettors add random stakes every
  second, and odds are recomputed after every change: the pool less a 25%
  take, divided by the horse's stake, clamped to [1.1, 200] and rounded to
  one decimal place. When the race starts running the market freezes a
  snapshot, and the race is settled against it.
- **Wallet** (`wallet.dfy`, WalletService). It buys tickets at the current
  odds, or at a fallback price derived from speed. It rewrites the odds of
  a race's open tickets when betting closes, and settles a finished race's
  tickets exactly once.
- **Horse market** (`horse_market.dfy`, HorseMarketService). It puts five
  horses, priced by ability, up for sale; the player buys them with wallet
  money.
- **Breeding** (`breeding.dfy`, BreedingService). It retires horses, and
  breeds two retired horses of opposite sex into a foal. The foal's stats
  are inherited: the parents' average plus a mutation. Its name is built
  from the parents' names.
- **Shared pieces:**
  - `domain.dfy` holds the entities of Models/DomainModels.cs;
  - `numerics.dfy` holds .NET's clamping, banker's rounding, C#'s
    truncating division and decimal text;
  - `seqs.dfy` holds sequence lemmas.

How the model is shaped:

- **Objects are classes.** Objects the source mutates in place (horses,
  races, the trader, the services) are classes whose methods state their
  new state.
- **Values are datatypes.** Values such as tickets, ledgers, race cards and
  odds books are datatypes.
- **Loops become methods.** Each loop is proved equal to a specification
  function: a fold over the loop's inputs, such as BetsFold for the
  synthetic bets, PickFrom for the cumulative pick and SumPlacePayout for
  the place payout. That function's properties are proved as lemmas.
- **Inputs are parameters.** Every random draw, the clock, fresh
  GUID-derived ids and the name generator are parameters.
- **Number types:**
  - C# `decimal` and `double` are modelled as `real`;
  - C#'s truncating `int` division and `Math.Round`'s ties-to-even are
    written out explicitly.

## Model

| member | source | states |
|---|---|---|
| Numerics.Clamp | Services/RaceEngineService.cs:309-310 | Math.Clamp: the result lies in [lo, hi] and is the argument itself when that is already inside |
| Numerics.ClampInt | Services/BreedingService.cs:41-42 | integer Math.Clamp: the result lies in [lo, hi] and is the argument when that is inside |
| Numerics.TruncDiv | Services/BreedingService.cs:34-35 | C# integer division truncates toward zero: the quotient of the magnitudes with the dividend's sign, and q·b lies within one divisor of a on the side of zero |
| Numerics.RoundHalfEven | Services/OddsMarketService.cs:284 | Math.Round(decimal, 0): the result is within 0.5 of the argument, and an exact tie goes to the even neighbour |
| Numerics.RoundHalfEvenMonotone | Services/OddsMarketService.cs:284 | rounding to an integer never reverses the order of two values |
| Numerics.RoundTenth | Services/OddsMarketService.cs:303 | Math.Round(x, 1): a whole number of tenths within 0.05 of x, mapping the odds range [1.1, 200] into itself |
| Numerics.RoundTenthMonotone | Services/OddsMarketService.cs:303 | rounding to a tenth never reverses the order of two values |
| Numerics.DecimalText | Services/BreedingService.cs:64 | the interpolated text of a natural number is non-empty, all digits, and at most two characters below 100 |
| Numerics.DecimalTextRoundTrip | Services/BreedingService.cs:64 | reading the decimal text back gives the number again |
| Seqs.SortDesc | Services/RaceEngineService.cs:209-211 | ordering by descending key gives a permutation of the input, of the same length, sorted by the key |
| Seqs.RemoveFirst | Services/HorseMarketService.cs:56 | List.Remove: an absent element leaves the list unchanged; a present one leaves a list one shorter, with one occurrence fewer of that element and the same other elements |
| Seqs.RemoveFirstDistinct | Services/HorseMarketService.cs:56 | removing from a duplicate-free list keeps it duplicate-free, and the removed element is no longer in it |
| Domain.TierRank | Models/DomainModels.cs:6 | the class order 新馬 < … < オープン as ranks 0..5, with 0 exactly for 新馬 and 5 exactly for オープン |
| Domain.Promote | Services/RaceEngineService.cs:389-392 | a winner below オープン rises strictly in class (新馬 and 未勝利 both to 一勝クラス, every other class one step), and オープン stays |
| Domain.Horse.Default | Models/DomainModels.cs:12-40 | a new horse carries the property initialisers: default name and coat, 牡, 先行, condition 100, price 1000, age 2, 現役, 新馬, unknown parents and an empty career |
| Domain.Horse.constructor | Models/DomainModels.cs:12-40 | an object initialiser sets the given properties and leaves the career at its defaults (no fatigue, never ran, no runs, wins or earnings) |
| Domain.Horse.SetCareer | Services/RaceEngineService.cs:379-392 | writing a horse's career fields leaves exactly the given career |
| Domain.DistinctSubsetLength | Services/RaceEngineService.cs:360-363 | a duplicate-free list drawn from the entrants' ids, such as the finish order, is never longer than the field |
| Domain.Race.Default | Models/DomainModels.cs:42-56 | a new race: 未勝利戦, 一般, 未勝利, 芝, 1200 m, accepting bets, no entrants, no finish order, empty simulation maps |
| Domain.Race.constructor | Services/RaceEngineService.cs:95-103 | the generated race's object initialiser: the card's name, grade, class, course and distance, accepting bets, with no entrants |
| Domain.DefaultTicket | Models/DomainModels.cs:65-76 | a new ticket is an unsettled 単勝 ticket with empty ids, no targets, and zero stake, odds and payout |
| Domain.Trader.constructor | Models/DomainModels.cs:58-63 | a new trader holds 1,000,000,000,000 and owns no horses and no tickets |
| Population.TierFromDraw | Services/PopulationManagerService.cs:31-39 | a generated horse is never 新馬; it is 未勝利 exactly for draws below 0.5 and オープン exactly for draws from 0.95 |
| Population.SpeedBonus | Services/PopulationManagerService.cs:33-39 | the speed bonus is ten points per class above 未勝利 |
| Population.GeneratedSpeed | Services/PopulationManagerService.cs:46 | speed lies in [1, 100], and for a draw in [40, 60) it is the draw plus the class bonus |
| Population.GeneratedSpeedMonotone | Services/PopulationManagerService.cs:31-46 | a higher class draw never gives a slower horse |
| Population.SexOf | Services/PopulationManagerService.cs:44 | the cast of the drawn integer: 0 is 牡 and 1 is 牝 |
| Population.StyleOf | Services/PopulationManagerService.cs:49 | the cast of the drawn integer: 0 is 逃げ and 3 is 追込 |
| Population.Generate | Services/PopulationManagerService.cs:27-56 | a fresh horse whose every field is fixed by the draws (GeneratedFrom): the drawn id, names, class, speed, sex, coat, style, stamina, acceleration, age and condition, and otherwise the defaults (active, gate 0, price 1000, no fatigue, never ran, no runs, wins or earnings) |
| Population.FilterSelectable | Services/PopulationManagerService.cs:62-65 | the three Where filters keep exactly the horses of the class that are active, less than 80 fatigued and rested more than 20 seconds |
| Population.FilterKeepsDistinct | Services/PopulationManagerService.cs:62-65 | filtering a population with distinct ids keeps the ids distinct |
| Population.ShuffledPositions | Services/PopulationManagerService.cs:66 | the shuffle is a permutation of the positions, ordered by the drawn keys |
| Population.SelectEntrantsSound | Services/PopulationManagerService.cs:60-69 | 出走馬選出 returns at most the requested count of selectable horses from the population, with distinct ids; when it returns fewer, every selectable horse was chosen |
| Population.SelectionDistinct | Services/PopulationManagerService.cs:60-69 | the selected entrants have distinct ids |
| Population.SelectionFull | Services/PopulationManagerService.cs:66-67 | the selection lists only selectable population members; a short selection contains all of them |
| Population.Recovered | Services/PopulationManagerService.cs:75-77 | a fatigued horse's fatigue becomes exactly max(0, f − 5): f − 5 from 5 up, 0 below that, always strictly lower; a horse with no fatigue is unchanged |
| Population.PopulationManager.constructor | Services/PopulationManagerService.cs:11-15 | the service starts with 1000 fresh horses with distinct ids, the i-th generated from the i-th draw as GeneratedFrom states |
| Population.PopulationManager.Initialize | Services/PopulationManagerService.cs:17-25 | 初期化 replaces the population by one fresh horse per draw, in draw order, each with every field GeneratedFrom its draw, and the ids stay distinct |
| Population.PopulationManager.RecoverAll | Services/PopulationManagerService.cs:71-80 | 全頭疲労回復 sets every horse's fatigue to its recovered value |
| RaceFormulas.InitialLateral | Services/RaceEngineService.cs:431-442 | the starting lane is within 0.06 of the style's base lane and inside [0.08, 0.92] |
| RaceFormulas.FailedKickDraw | Services/RaceEngineService.cs:444-448 | only a 追込 horse misfires, exactly when its draw is below 0.35 |
| RaceFormulas.LateStartRate | Services/RaceEngineService.cs:452-453 | the late-start rate lies in [0.05, 0.20] |
| RaceFormulas.StartDelay | Services/RaceEngineService.cs:450-460 | the delay is the base delay, plus the extra delay exactly when the late draw falls below the gate's late-start rate; it lies in [0, 20] |
| RaceFormulas.AccelNorm | Services/RaceEngineService.cs:462-465 | the normalised acceleration lies in [0, 1] |
| RaceFormulas.InitialCruise | Services/RaceEngineService.cs:467-471 | the cruising speed of a horse with non-negative speed is at least 82.5 |
| RaceFormulas.DelayedStartSpeed | Services/RaceEngineService.cs:229-232 | a delayed horse runs between half and all of the starting speed |
| RaceFormulas.TargetLateral | Services/RaceEngineService.cs:473-493 | the target lane lies in [0.08, 0.92] |
| RaceFormulas.TargetLateralMonotoneInRank | Services/RaceEngineService.cs:473-493 | a horse further back never aims further inside |
| RaceFormulas.KickPoint | Services/RaceEngineService.cs:495-568 | the kick point lies between the style's floor and its base point |
| RaceFormulas.EarlyLoad | Services/RaceEngineService.cs:495-568 | the load of an early kick lies in [0, 0.15] |
| RaceFormulas.PaceCurve | Services/RaceEngineService.cs:495-568 | the multiplier lies in [0.75, 1.20]; 逃げ, 先行 and misfiring 追込 never spurt and carry no load; a spurt starts at 45% or later; a load only arises during a spurt and lies in [0, 0.15] |
| RaceFormulas.StaminaCorrection | Services/RaceEngineService.cs:570-578 | the stamina factor lies in [0.70, 1.05] |
| RaceFormulas.StaminaBasePositive | Services/RaceEngineService.cs:570-578 | the uncapped stamina factor stays positive |
| RaceFormulas.StaminaCorrectionMonotone | Services/RaceEngineService.cs:570-578 | more stamina left never slows a horse down |
| RaceFormulas.NearestAhead | Services/RaceEngineService.cs:605-637 | the nearest horse ahead in the lane: None exactly when no horse is ahead within the width, otherwise the smallest such gap |
| RaceFormulas.GapCorrection | Services/RaceEngineService.cs:605-637 | the gap factor lies in [0.8, 1.0]; it is 1 with nobody ahead in the lane, and below 1 only with a horse ahead closer than the minimum gap |
| RaceFormulas.Evasion | Services/RaceEngineService.cs:639-684 | evasion moves 0.10 inside or outside to a lane that is clear, and returns None exactly when neither lane is clear; with one lane clear it takes that one, and with both clear it takes the outside lane exactly when its distance from the inner limit exceeds the inside lane's distance from the outer limit |
| RaceTick.FieldOf | Services/RaceEngineService.cs:205-218 | the field snapshot orders the entrants by distance, descending, as a permutation of them; a missing lane reads 0.5 |
| RaceTick.IndexOf | Services/RaceEngineService.cs:212-214 | a horse's rank is the first index of its id in the order |
| RaceTick.PositionCorrection | Services/RaceEngineService.cs:243-253 | the position factor lies in [0.96, 1.04], and is at least 1 for a horse at or ahead of its style's target rank |
| RaceTick.Slipstream | Services/RaceEngineService.cs:261-271 | the slipstream factor lies in [1, 1.03], and is 1 for the leader |
| RaceTick.EaseOff | Services/RaceEngineService.cs:273-283 | the leader eases to 0.97 exactly when there are at least two runners, it is more than 8 m clear, and progress is below 0.85; otherwise 1 |
| RaceTick.CornerFactor | Services/RaceEngineService.cs:286 | 0.97 exactly inside the two corner sections, otherwise 1 |
| RaceTick.OutsideLoss | Services/RaceEngineService.cs:313-315 | the outside-lane factor lies in [0.92, 1] |
| RaceTick.NextLateral | Services/RaceEngineService.cs:309-311 | the next lane lies in [0.08, 0.92], and moves at most one lateral step from a lane inside the track |
| RaceTick.NextSpeed | Services/RaceEngineService.cs:330-339 | speed never goes negative, and changes by at most 0.78 per tick |
| RaceTick.StaminaCost | Services/RaceEngineService.cs:341-346 | the stamina cost is positive, heavier while spurting, and bounded while cruising |
| RaceTick.AdvanceProgress | Services/RaceEngineService.cs:348-357 | progress never decreases and is clamped to 1 at the finish |
| RaceTick.Step | Services/RaceEngineService.cs:222-357 | one horse's tick: a horse with delay left counts it down by one; otherwise progress does not fall, the lane moves at most one step, stamina falls (or is spent), and speed changes by at most 0.78 |
| RaceTick.Apply | Services/RaceEngineService.cs:229-357 | the writes of one horse's tick go to its own entries of the simulation maps |
| RaceTick.Turn | Services/RaceEngineService.cs:220-364 | a horse's turn keeps the set of horses in the maps |
| RaceTick.TickPrefix | Services/RaceEngineService.cs:220-366 | the loop over the entry list keeps the set of horses in the maps |
| RaceTick.TurnFrame | Services/RaceEngineService.cs:220-364 | a horse's turn leaves every other horse's entries and finish status untouched |
| RaceTick.TurnOwn | Services/RaceEngineService.cs:222-364 | a horse's own turn moves it forward, keeps its entries valid, and appends it to the finish order exactly when it reaches the line; the all-finished flag survives only if it had already finished |
| RaceTick.TurnMoves | Services/RaceEngineService.cs:222-357 | a horse's turn relates its old and new entries as a valid tick step |
| RaceTick.TurnFinishes | Services/RaceEngineService.cs:355-364 | a horse's turn appends it to the duplicate-free finish order exactly when it reaches 1.0 |
| RaceTick.TurnKeepsInvariant | Services/RaceEngineService.cs:220-364 | each turn of the loop keeps the tick invariant for the horses handled so far |
| RaceTick.TickPrefixInvariant | Services/RaceEngineService.cs:220-366 | the loop invariant holds after any prefix of the entry list |
| RaceTick.TickSound | Services/RaceEngineService.cs:200-366 | after a tick the simulation invariant still holds: every horse's progress does not fall, its lane moves at most one step, stamina and delay do not rise, the finish order only grows, and "all finished" is reported exactly when every entrant had already finished |
| RaceTick.InvariantComplete | Services/RaceEngineService.cs:200-366 | the loop invariant at the end of the list gives the tick's guarantees |
| RaceEngine.CardOf | Services/RaceEngineService.cs:60-101 | a generated race is never 新馬; G1 exactly for a top class draw with a grade draw above 0.5, and then オープン; the サイバー空間 course exactly names the race 電脳賞; the distance is a multiple of 400 in [1200, 2800] |
| RaceEngine.RaceName | Services/RaceEngineService.cs:97 | the name reads 第, the serial (recoverable as a number), 回 and a space, then the suffix |
| RaceEngine.EligibleForGeneratedRace | Services/RaceEngineService.cs:132-141 | a 新馬 horse may enter a generated race exactly when it is 未勝利, and an オープン horse exactly when it is オープン |
| RaceEngine.WithStart | Services/RaceEngineService.cs:113-118 | an entrant's start entries add exactly its id to the progress map |
| RaceEngine.WithStartKeepsInvariant | Services/RaceEngineService.cs:110-119 | adding a new entrant with its start entries keeps the simulation invariant |
| RaceEngine.DropLastKeepsInvariant | Services/RaceEngineService.cs:144-149 | dropping the last entrant and its progress entry keeps the simulation invariant |
| RaceEngine.Enter | Services/RaceEngineService.cs:112-118 | entering a horse appends it and writes its start entries, and the race stays valid |
| RaceEngine.StartsSound | Services/RaceEngineService.cs:110-119 | the start entries of a distinct field satisfy the simulation invariant, and every entrant gets its own draws |
| RaceEngine.StartsEntries | Services/RaceEngineService.cs:110-119 | every entrant's start entries come from its own draw |
| RaceEngine.EnterAll | Services/RaceEngineService.cs:110-119 | the entry loop puts the whole selection in the race with its start entries |
| RaceEngine.WinnerId | Services/RaceEngineService.cs:373-374 | there is a winner exactly when the first finisher is an entrant, and it is that horse |
| RaceEngine.NewRace | Services/RaceEngineService.cs:95-121 | a fresh race built from the card, accepting bets, with the selected entrants and their start entries |
| RaceEngine.Kept | Services/RaceEngineService.cs:144-147 | a full field loses its last entrant; a smaller one is unchanged |
| RaceEngine.KeptSims | Services/RaceEngineService.cs:148 | only the dropped horse's progress entry is removed |
| RaceEngine.DropLast | Services/RaceEngineService.cs:144-149 | the race loses its last entrant and that horse's progress entry |
| RaceEngine.RegisterIn | Services/RaceEngineService.cs:126-157 | registration succeeds exactly when the race accepts bets, the horse is not entered and its class qualifies; it then drops the last runner of a full field and appends the horse with its start entries; otherwise nothing changes |
| RaceEngine.Engine.constructor | Services/RaceEngineService.cs:35-45 | the service starts with a generated current race accepting bets and three queued races |
| RaceEngine.Engine.GenerateRace | Services/RaceEngineService.cs:58-122 | レース生成 gives a fresh race, accepting bets, for the drawn card, entered by the population's selection for its class |
| RaceEngine.Engine.QueueRace | Services/RaceEngineService.cs:58-122 | a generated race as the queue sees it: fresh, accepting bets, with the drawn id and class |
| RaceEngine.Engine.GenerateRaces | Services/RaceEngineService.cs:52-55 | one fresh, distinct, queued race per draw, in order |
| RaceEngine.Engine.Refill | Services/RaceEngineService.cs:50-56 | 予定レース補充 keeps the queue and appends generated races until it holds three |
| RaceEngine.Engine.NextRace | Services/RaceEngineService.cs:48 | the next race is the head of the queue, absent exactly when the queue is empty |
| RaceEngine.Engine.Register | Services/RaceEngineService.cs:124-161 | registration for the next race: refused on an empty queue, otherwise as RegisterIn, and the engine stays valid |
| RaceEngine.Engine.RemainingVoteSeconds | Services/RaceEngineService.cs:167-175 | 0 once betting has closed, otherwise the remaining ticks divided by ten, rounded up |
| RaceEngine.Engine.RecoveryTick | Services/RaceEngineService.cs:180-184 | the counter advances modulo 100, and the population recovers exactly on the hundredth tick |
| RaceEngine.Engine.VotingTick | Services/RaceEngineService.cs:186-199 | after the 200th voting tick the race starts running and the counter resets; before that, the counter advances |
| RaceEngine.Engine.RunningTick | Services/RaceEngineService.cs:200-366 | the running phase applies the tick TickOf to the current race (TickOfSound states what it guarantees) |
| RaceEngine.Engine.FinishRace | Services/RaceEngineService.cs:368-394 | the race closes, and every entrant's career is updated as AfterRace says |
| RaceEngine.Engine.Advance | Services/RaceEngineService.cs:405-419 | the head of the queue (a new race if the queue is empty) becomes current, accepting bets; the countdown restarts; the rest of the queue moves up and is refilled to three |
| RaceEngine.TickOfSound | Services/RaceEngineService.cs:200-366 | a tick keeps the simulation invariant and moves every horse by a valid step, and it reports "all finished" exactly when every entrant had finished before it |
| RaceEngine.RunTick | Services/RaceEngineService.cs:200-366 | the running phase on a race writes the tick's maps and finish order, leaving the entrants alone |
| RaceEngine.TickValues | Services/RaceEngineService.cs:220-366 | the loop over the entrants computes exactly the tick's fold over Turn |
| RaceEngine.TakeTurn | Services/RaceEngineService.cs:222-364 | the body of the loop for one horse computes exactly its Turn |
| RaceEngine.AfterRace | Services/RaceEngineService.cs:377-394 | every runner gains a run, records the finish time and takes 30 fatigue, capped at 100; exactly the winner gains a win, the prize of 1,000,000 and a promotion |
| RaceEngine.RecordFinish | Services/RaceEngineService.cs:368-394 | the race is finished, and every entrant's career is updated from its old career, with the winner given by the finish order |
| RaceEngine.RecordCareers | Services/RaceEngineService.cs:377-394 | the career loop updates each listed horse as AfterRace says |
| OddsMarket.PlaceSlots | Services/OddsMarketService.cs:411-416 | three place slots for eight or more runners, one for fewer than five, otherwise two |
| OddsMarket.MarketScale | Services/OddsMarketService.cs:183-199 | the sizing table: graded races have at least 40,000 bettors, general races at most 20,000, and every race at least 200 bettors, 3 bets a second and an average stake of 300 |
| OddsMarket.WinSeed | Services/OddsMarketService.cs:104-105 | the initial win pool is positive for a real market |
| OddsMarket.PlaceSeed | Services/OddsMarketService.cs:104-106 | the win and place seeds split 20% of bettors × average stake, and the place seed is positive |
| OddsMarket.Strength | Services/OddsMarketService.cs:201-205 | a strength score is at least 1 |
| OddsMarket.WeightTotal | Services/OddsMarketService.cs:108-110 | the total weight is positive, and it is the plain sum for weights of at least 1 |
| OddsMarket.SeedShare | Services/OddsMarketService.cs:112-122 | each horse's seed stake is its proportional share of the seed pool, but at least 1 |
| OddsMarket.SeedShareMonotone | Services/OddsMarketService.cs:112-122 | a stronger horse never gets a smaller seed stake |
| OddsMarket.OddsFor | Services/OddsMarketService.cs:300-303 | odds are whole tenths in [1.1, 200], and 200 for a horse with no stake |
| OddsMarket.WinPayable | Services/OddsMarketService.cs:295-296 | the win payable is always positive, and is the pool less the 25% take whenever the pool is positive |
| OddsMarket.PlacePayable | Services/OddsMarketService.cs:309-312 | the place payable is always positive, and is the pool less the take divided among at least one slot whenever the pool is positive |
| OddsMarket.WinOdds | Services/OddsMarketService.cs:293-304 | 単勝オッズ再計算 for one horse: whole tenths in [1.1, 200] |
| OddsMarket.PlaceOdds | Services/OddsMarketService.cs:307-320 | 複勝オッズ再計算 for one horse: whole tenths in [1.1, 200] |
| OddsMarket.Strengths | Services/OddsMarketService.cs:108-110 | the strength of every entrant, in entry order |
| OddsMarket.TotalAdd | Services/OddsMarketService.cs:235-241 | adding an amount to one horse's stake adds exactly that amount to the pool's sum |
| OddsMarket.OddsAntitone | Services/OddsMarketService.cs:293-305 | a bigger stake on a horse never lengthens its odds |
| OddsMarket.OddsMonotoneInPool | Services/OddsMarketService.cs:293-305 | a bigger pool never shortens a horse's odds |
| OddsMarket.PlaceOddsAtMostWin | Services/OddsMarketService.cs:293-321 | for the same pool and stake, place odds never exceed win odds, and are equal for one slot |
| OddsMarket.WinPayoutWithinPool | Services/OddsMarketService.cs:293-305 | unless the minimum-odds clamp lifts the odds, the stake times the win odds is at most the payable pool plus rounding |
| OddsMarket.LockedFirst | Services/OddsMarketService.cs:323-377 | a query answers the race's frozen odds when it has the horse, otherwise the live odds, otherwise 0 |
| OddsMarket.LockedFirstRange | Services/OddsMarketService.cs:323-377 | every answer is 0 or within [1.1, 200], and it is 0 exactly when neither book lists the horse |
| OddsMarket.RandomStake | Services/OddsMarketService.cs:279-285 | a synthetic stake is a whole number of hundreds, at least 100 and within 50 of [max(100, 0.4·avg), 2.5·avg] |
| OddsMarket.NextInt | Services/OddsMarketService.cs:224 | `Random.Next(lo, hi)` from a uniform draw lies in [lo, hi) |
| OddsMarket.BetCount | Services/OddsMarketService.cs:222-224 | the number of bets per second lies in [max(1, n/2), n + n/2] |
| OddsMarket.Weights | Services/OddsMarketService.cs:263-265 | each horse's pick weight is its strength plus up to 20 of noise, at least 1 |
| OddsMarket.PickFromReaches | Services/OddsMarketService.cs:269-276 | the index the scan specification picks has every earlier running sum below the target, and its own running sum reaches the target whenever the total does |
| OddsMarket.PickIndex | Services/OddsMarketService.cs:270-276 | the cumulative scan loop returns exactly the index PickFrom specifies: the first whose running sum reaches the target, or the last one |
| OddsMarket.PickLandsInSlice | Services/OddsMarketService.cs:268-276 | the picked index is the one whose slice of the cumulative weights holds the target |
| OddsMarket.PickedIndexInSlice | Services/OddsMarketService.cs:266-276 | for a draw in [0, 1) and positive weights, the specified pick is the index whose slice of the cumulative weights holds the draw times the total |
| OddsMarket.PickWeighted | Services/OddsMarketService.cs:266-276 | the scan over draw × total returns exactly PickedIndex, the horse whose weight slice holds the scaled draw |
| OddsMarket.PickedHorse | Services/OddsMarketService.cs:259-277 | no horse exactly for an empty field; otherwise one of the entrants |
| OddsMarket.PickHorse | Services/OddsMarketService.cs:259-277 | ランダムに馬を選ぶ returns PickedHorse: no horse exactly for an empty field; otherwise the entrant at the index whose weight slice holds the draw |
| OddsMarket.SoundInRange | Services/OddsMarketService.cs:287-321 | a book priced from its own stakes quotes only odds in [1.1, 200] |
| OddsMarket.PriceAll | Services/OddsMarketService.cs:298-304 | the repricing loop prices every listed horse from its stake |
| OddsMarket.Reprice | Services/OddsMarketService.cs:287-291 | オッズ再計算 prices both categories from the book's own stakes and pools, which it leaves unchanged |
| OddsMarket.Zeros | Services/OddsMarketService.cs:94-97 | every entrant starts with a zero entry |
| OddsMarket.SeedMapAt | Services/OddsMarketService.cs:112-122 | each entrant's seeded stake is its seed share |
| OddsMarket.SeedStakes | Services/OddsMarketService.cs:112-122 | the seeding loop gives every entrant its share |
| OddsMarket.SlotsFor | Services/OddsMarketService.cs:153 | the race's recorded slot count, 3 when none is recorded |
| OddsMarket.Stake | Services/OddsMarketService.cs:383-395 | a place stake goes to the horse's place stake and the place pool; any other stake goes to its win stake and the win pool; odds are untouched |
| OddsMarket.StakeKeepsTotals | Services/OddsMarketService.cs:383-395 | after a stake, each pool is still the sum of its stakes |
| OddsMarket.SeededFavouriteShorter | Services/OddsMarketService.cs:108-126 | right after seeding, a stronger horse has win odds no longer than a weaker one |
| OddsMarket.SeedBook | Services/OddsMarketService.cs:91-127 | 初期化's book is priced from its stakes, and each stake is the seed share of the horse's strength |
| OddsMarket.BetStep | Services/OddsMarketService.cs:228-242 | one synthetic bet leaves an empty field's book as it is and otherwise adds exactly the drawn stake to the pools; the odds are untouched |
| OddsMarket.BetStepKeepsBook | Services/OddsMarketService.cs:228-242 | one synthetic bet keeps each pool the sum of its stakes and never shrinks a stake or a pool |
| OddsMarket.BetStepInSlice | Services/OddsMarketService.cs:228-242 | on a non-empty field the bet goes on the entrant whose weight slice holds the pick draw, on win below 0.7 and on place otherwise (StakedOnPick) |
| OddsMarket.OneBet | Services/OddsMarketService.cs:228-244 | the loop body computes exactly BetStep; a bet is placed exactly when the field is not empty, and then on the picked entrant as StakedOnPick states |
| OddsMarket.BetsFold | Services/OddsMarketService.cs:226-245 | n synthetic bets leave an empty field's book as it is and otherwise add exactly the stakes drawn to the pools; the odds are untouched |
| OddsMarket.BetsFoldKeepsBook | Services/OddsMarketService.cs:226-245 | any number of synthetic bets keep each pool the sum of its stakes and never shrink a stake or a pool |
| OddsMarket.PlaceBets | Services/OddsMarketService.cs:226-245 | the bet loop computes exactly BetsFold over the first n draws; something is placed exactly when there are runners and n > 0 |
| OddsMarket.BetsThenReprice | Services/OddsMarketService.cs:226-250 | the bets followed by オッズ再計算 when something was placed: the result is priced, holds exactly BetsFold's stakes and pools, and never shrinks; with nothing placed the book is unchanged |
| OddsMarket.SoundUnique | Services/OddsMarketService.cs:287-321 | two priced books for the same horses and slot count that hold the same stakes and pools are equal, so the repriced book is fixed by its bets |
| OddsMarket.SeedThenBet | Services/OddsMarketService.cs:214-250 | a new race's book is priced and holds the bets of BetsFold started from a book seeded from the entrants' strengths |
| OddsMarket.Take | Services/OddsMarketService.cs:154 | Enumerable.Take: a prefix of the list, of length min(n, length) and never negative |
| OddsMarket.Payout | Services/OddsMarketService.cs:147-150 | stake × odds when the book holds both for the horse, otherwise 0 |
| OddsMarket.WinPayout | Services/OddsMarketService.cs:145-151 | the win payout is the first finisher's payout, and 0 without a first finisher |
| OddsMarket.PlacePayoutNonNegative | Services/OddsMarketService.cs:153-162 | with non-negative stakes the place payout is never negative |
| OddsMarket.PlacePayoutUnknown | Services/OddsMarketService.cs:155-161 | placed horses without a stake in the book add nothing |
| OddsMarket.SumPlacePayout | Services/OddsMarketService.cs:153-162 | the place payout loop computes the sum over the placed horses |
| OddsMarket.SettledWinWithinPool | Services/OddsMarketService.cs:145-151 | a winner priced from the settled book is paid at most its payable pool plus rounding, so the house keeps its take |
| OddsMarket.OddsPayoutBound | Services/OddsMarketService.cs:300-303 | outside the minimum-odds clamp, a stake times its odds is at most the payable pool plus the rounding of a twentieth of the stake |
| OddsMarket.WinPayoutWithinShare | Services/OddsMarketService.cs:145-151 | the win payout is at most the payable win pool plus the winner's rounding |
| OddsMarket.PlacePayoutWithinShare | Services/OddsMarketService.cs:153-162 | the place payout over k placed horses is at most k slot shares of the place pool plus their rounding |
| OddsMarket.SharesWithinPool | Services/OddsMarketService.cs:309-312 | at most as many slot shares as slots never exceed the place pool less the take |
| OddsMarket.SettlementKeepsTake | Services/OddsMarketService.cs:129-181 | with both pools positive and no stake lifted by the minimum-odds clamp, settling a priced book pays out at most 75% of total sales plus the rounding of the paid stakes, so the race's 利益 is at least the 25% take less that rounding |
| OddsMarket.Market.constructor | Services/OddsMarketService.cs:40-51 | the service starts seeded for the race current at start-up, unlocked, with no snapshots and no history |
| OddsMarket.Market.Initialize | Services/OddsMarketService.cs:91-127 | 初期化 records the race and its slot count, sizes the market, and seeds and prices the book |
| OddsMarket.Market.SwitchRace | Services/OddsMarketService.cs:53-61 | a race switch reseeds the market and reopens betting |
| OddsMarket.Market.OnStateChanged | Services/OddsMarketService.cs:63-89 | betting closes exactly on the first running notice for the race the market holds, freezing the live book as its snapshot; otherwise nothing changes |
| OddsMarket.Market.Quote | Services/OddsMarketService.cs:323-377 | the shared lookup answers the frozen odds, the live odds or 0, in that order |
| OddsMarket.Market.QuoteSound | Services/OddsMarketService.cs:323-377 | in a valid market a live answer is the odds the horse's stake prices on its pool, an unlisted horse without frozen odds gets 0, and every answer is 0 or in [1.1, 200] |
| OddsMarket.Market.CurrentWinOdds | Services/OddsMarketService.cs:323-335 | 現在オッズ is the lookup for the current race's win odds |
| OddsMarket.Market.CurrentPlaceOdds | Services/OddsMarketService.cs:337-349 | 現在複勝オッズ is the lookup for the current race's place odds |
| OddsMarket.Market.LockedWinOdds | Services/OddsMarketService.cs:351-363 | 確定単勝オッズ取得 is the lookup for a given race's win odds |
| OddsMarket.Market.LockedPlaceOdds | Services/OddsMarketService.cs:365-377 | 確定複勝オッズ取得 is the lookup for a given race's place odds |
| OddsMarket.Market.PlayerWager | Services/OddsMarketService.cs:379-400 | a player's stake on a listed horse enters its category's pool and the book is repriced; an unlisted horse changes nothing |
| OddsMarket.Market.SecondTick | Services/OddsMarketService.cs:207-257 | nothing happens unless the current race takes bets; a race already held gets BetCount draws' worth of bets, its book holding exactly BetsFold's stakes and pools, growing, and changing exactly when there are runners; a race not yet held is sized by its grade and class and its book holds BetsFold's bets on top of the seeded book |
| OddsMarket.Market.SeedAndTakeBets | Services/OddsMarketService.cs:214-250 | 初期化 then the bets: the market holds the race at its grade's size, and the book holds BetsFold's bets on top of a book seeded from the entrants' strengths |
| OddsMarket.Market.TakeBets | Services/OddsMarketService.cs:220-250 | the book holds exactly BetsFold's stakes and pools over BetCount(betsPerSecond, draw) draws, priced and never shrunk; something changes exactly when the field is not empty |
| OddsMarket.Market.Settle | Services/OddsMarketService.cs:129-181 | the race settles against its snapshot if it has one, else the live book: total sales are the two pools (in a valid market, the sum of all stakes), total payout is the winner's payout plus the placed horses', and the record goes to the head of the history |
| Wallets.FallbackOdds | Services/WalletService.cs:32 | the fallback price is a whole number of tenths within 0.05 of 500 / speed |
| Wallets.FallbackAntitone | Services/WalletService.cs:32 | a faster horse never gets a longer fallback price |
| Wallets.FallbackRange | Services/WalletService.cs:32 | for speeds in [1, 100] the fallback lies in [5, 500] |
| Wallets.TicketOdds | Services/WalletService.cs:27-32 | a positive quote is used as it is; otherwise the fallback, which fails exactly for speed 0 |
| Wallets.TicketOddsPriced | Services/WalletService.cs:27-32 | with a market quote and a generated speed, a ticket always gets odds of at least 1.1 |
| Wallets.NewTicket | Services/WalletService.cs:34-43 | the ticket records the race, the horse, its name, the kind, the stake and the odds, targeting that one horse, unsettled |
| Wallets.TargetsOf | Services/WalletService.cs:75 | a ticket's targets are its target list, or its horse when that list is empty |
| Wallets.Settle | Services/WalletService.cs:73-91 | an open ticket on the race becomes settled and, when it hits, is paid stake × odds; any other ticket is untouched |
| Wallets.Credit | Services/WalletService.cs:76-89 | the balance gains the payout of a hitting open ticket, and nothing otherwise |
| Wallets.SettleAll | Services/WalletService.cs:67-92 | every ticket of the list is settled as Settle says, in place |
| Wallets.WinningsNonNegative | Services/WalletService.cs:73-92 | with non-negative stakes and odds, settling never lowers the balance |
| Wallets.SettledNoneDue | Services/WalletService.cs:91 | after settling, no ticket on the race is open |
| Wallets.NothingDueNoWinnings | Services/WalletService.cs:67-71 | with no open ticket on the race, nothing is credited |
| Wallets.SettleTwice | Services/WalletService.cs:67-92 | settling a race twice changes nothing the second time and credits nothing |
| Wallets.SettledPays | Services/WalletService.cs:76-89 | a hitting open ticket is settled and paid stake × odds |
| Wallets.Relock | Services/WalletService.cs:107-114 | an open ticket on the race takes the market's locked odds for its horse and kind; any other ticket is untouched |
| Wallets.RelockAll | Services/WalletService.cs:99-117 | every ticket of the list is relocked as Relock says |
| Wallets.RelockAllShape | Services/WalletService.cs:99-117 | relocking changes only the odds of open tickets on the race; they become 0, a price in [1.1, 200], or stay as they were; relocking twice changes nothing |
| Wallets.RelockFrozen | Services/WalletService.cs:107-114 | with a snapshot for the race, the ticket takes the frozen odds |
| Wallets.PaidAtLockedOdds | Services/WalletService.cs:76-114 | a hitting ticket relocked at close is paid its stake times the locked odds |
| Wallets.Wallet.constructor | Services/WalletService.cs:11-15 | the wallet starts with a new trader holding the initial balance |
| Wallets.Wallet.Purchase | Services/WalletService.cs:22-47 | refused with nothing changed when the balance is short; otherwise the amount is debited and, unless the fallback divides by zero, a ticket at the quoted (or fallback) odds is appended and the stake is forwarded to the market |
| Wallets.Wallet.PurchaseWin | Services/WalletService.cs:17-20 | the kind-less overload buys a win ticket |
| Wallets.Wallet.Pay | Services/WalletService.cs:49-54 | the amount is debited exactly when the balance covers it, so a payment never makes the balance negative |
| Wallets.Wallet.ProcessRaceResult | Services/WalletService.cs:56-95 | without a first finisher who is an entrant nothing happens; otherwise the race's open tickets are settled against the first finisher and the place slots, and their winnings credited |
| Wallets.Wallet.SettleTickets | Services/WalletService.cs:73-92 | the settlement loop computes exactly SettleAll and the winnings |
| Wallets.Wallet.SettleTicket | Services/WalletService.cs:75-91 | the loop body for one open ticket computes exactly Settle and Credit |
| Wallets.Wallet.LockedOddsFor | Services/WalletService.cs:109-113 | the locked odds are place odds for a place ticket and win odds for every other kind |
| Wallets.Wallet.OnBettingLocked | Services/WalletService.cs:99-117 | 投票締切処理 relocks the ticket list as RelockAll says |
| Wallets.Wallet.RelockTickets | Services/WalletService.cs:107-114 | the relock loop computes exactly RelockAll |
| Wallets.Wallet.OnRaceStateChanged | Services/OddsMarketService.cs:63-89 | when the market closes betting on the race, the race's open tickets are relocked against the new snapshot; otherwise nothing changes |
| HorseMarkets.SalePrice | Services/HorseMarketService.cs:30 | the asking price is ten per point of speed plus ten per point of stamina |
| HorseMarkets.SalePriceRange | Services/HorseMarketService.cs:27-30 | every horse put on sale costs between 1000 and 3980 |
| HorseMarkets.NewSaleHorse | Services/HorseMarketService.cs:32-44 | a fresh sale horse with the drawn names, sex, style, coat, speed and stamina, at its price, aged 2, otherwise a default horse |
| HorseMarkets.HorseMarket.constructor | Services/HorseMarketService.cs:14-19 | the service opens with a refreshed sale list |
| HorseMarkets.HorseMarket.Refresh | Services/HorseMarketService.cs:21-47 | 市場更新 replaces the list by exactly five fresh, distinct horses, one per draw, in order |
| HorseMarkets.HorseMarket.Buy | Services/HorseMarketService.cs:49-61 | a purchase succeeds exactly when the balance covers the price and the horse is on sale; it then debits the price, appends the horse to the player's horses and takes it off sale; otherwise nothing changes |
| Breeding.InheritedStat | Services/BreedingService.cs:34-42 | an inherited stat lies in [1, 100], and is the truncated parents' average plus the mutation when that lies inside |
| Breeding.InheritedNearParents | Services/BreedingService.cs:33-42 | a foal's stat lies between ten below the weaker parent and fourteen above the stronger one, within [1, 100] |
| Breeding.InheritedMonotone | Services/BreedingService.cs:41-42 | a larger mutation never gives a weaker foal |
| Breeding.SireHead | Services/BreedingService.cs:62 | the first two characters of the sire's name, or the whole of a shorter one |
| Breeding.DamTail | Services/BreedingService.cs:63 | the last two characters of the dam's name, or the whole of a shorter one |
| Breeding.FoalName | Services/BreedingService.cs:59-65 | the foal's name is longer than its two name parts and at most six characters |
| Breeding.FoalNameReadsBack | Services/BreedingService.cs:59-65 | the name splits back into the sire's head, the dam's tail and the digits of the drawn number |
| Breeding.Breeder.constructor | Services/BreedingService.cs:12-15 | the service keeps the wallet it is given |
| Breeding.Breeder.Retire | Services/BreedingService.cs:17-23 | an active horse becomes retired, and any other horse is left as it is |
| Breeding.Breeder.Breed | Services/BreedingService.cs:26-57 | no foal and no change unless both parents are retired and of opposite sex; otherwise a fresh foal is appended to the player's horses and returned, with every field fixed (Foaled): inherited speed and stamina, the drawn sex and parent's coat, the parents' names, age 2, price 0, 新馬, and the Horse defaults for style, gate, condition, acceleration and career |

## Left out

- **Timers, locks, events and async:** the 100 ms game loop timer, the market's one-second timer, `lock`, `Dispose`, every event (レース状態変更時, レース切替時, レース終了時, オッズ変動時, 投票締切時, 収支更新時, 残高変動時, 市場更新時, 牧場更新時) and the five-second `Task.Delay`. Concurrency is outside Dafny's sequential model. Each handler is a method the caller invokes; the one subscription that changes state (the wallet relocking tickets on 投票締切時) is Wallets.Wallet.OnRaceStateChanged.
- **Game-loop dispatch:** ゲームループ is modelled as its phases, run in order by the caller: RecoveryTick, then VotingTick or RunningTick, then FinishRace once a tick reports that all horses finished, then Advance. The dispatch adds no state of its own.
- **Inputs from outside:** `Random`, `DateTime.Now`, `Guid.NewGuid` and the horse-name generator (馬名生成サービス, not part of this model) become parameters: draws, `now`, ids and names. Drawn ids are required to be distinct, which the source gets from fresh GUIDs.
- **`Math.Pow(p, 1.6)`:** this is the function parameter `pow16`, assumed to map [0, 1] into [0, 1] where a lemma needs it. Floating point is modelled as exact reals.
- **Broken DomainModels.cs:** the file lacks the acceleration property and the lane, speed, stamina, delay and misfire maps that the services use. The model adds them, as the services use them. A horse put on sale or foaled gets acceleration 0, the default of the missing property.
- **Exotic tickets:** ワイド, 馬連, 馬単, 三連複 and 三連単 tickets are bought into the win pool and settled without payout, as the source does. No further semantics is modelled.
- **Ticket updates in place:** tickets are values, and the wallet's in-place writes to ticket objects become writes of the list entry. Aliasing between a ticket object and other holders is not captured.
- **Loops build lists then assign:** the loops of 初期化 (population), 市場更新 and the settlement work on a local sequence and assign it at the end. Aliasing during the loop is not captured.
- Seqs.SortDesc: the stability of `OrderByDescending` for equal distances is not stated.
- Population.SelectEntrantsSound: the shuffle is modelled as sorting by the drawn keys. Uniformity of the shuffle is not stated.
- OddsMarket.Market.SecondTick: requires that the market's horses are the current race's entrants when it already holds that race. This is how the engine uses it; the source would throw on a horse it does not list.
- OddsMarket.Market.TakeBets: the bet draws are a finite list given up front, at least MaxBets long (the most one tick can draw). The entrants' strengths are read once per tick rather than once per bet, which is the same in a sequential model, since no horse changes during the tick.
- OddsMarket.Market.TakeBets: `if (_平均毎秒ベット数 <= 0) return;` is kept at the head of the bet path, but in a valid market it never fires: the sizing table gives at least 3 bets a second.
- OddsMarket.Market.SeedAndTakeBets: the seeded book is built as a value, bet on and repriced, then installed once. The state between 初期化 and the bets, which nothing observes, is not a separate step.
- OddsMarket.SettlementKeepsTake: holds only when both pools are positive and no stake is priced by the 1.1 minimum-odds clamp. The clamp can pay out more than the pool, as the source allows.
- OddsMarket.Market.PlayerWager: does not check whether betting has closed, because the source does not check it either.
- OddsMarket.Market.Initialize: does not reset the lock flag, as in the source; SwitchRace resets it.
- Wallets.Wallet.Purchase: the `DivideByZeroException` for a horse of speed 0 without a quote is the outcome `Faulted`, raised after the debit as in the source. What happens to the exception afterwards is not modelled.
- Wallets.Wallet.ProcessRaceResult: the early return on `!Any()` is not a separate branch, because settling an empty selection changes nothing.
- RaceEngine.Engine.constructor: it states the queue's length and validity, not each race's card. GenerateRace states the card.
- RaceEngine.Engine.QueueRace: it deliberately exposes less of GenerateRace (fresh, queued, id and class), to keep the queue's proofs small.
- HorseMarkets.HorseMarket.Buy: `List.Remove` and `Contains` use reference equality, which is object identity in the model.
- **Display-only helpers:** the commentary service and the UI are display only and are not part of this model.
