/**
 * The web application's own dice roller (`roll_dice` of app.py) and the input guard of its
 * `/roll` endpoint. This roller is independent of the engine in IntelligentDice: its success
 * count has no bonus for pairs of tens, and its Bestial Failure needs only one Hunger die
 * showing 1 on a roll without successes.
 */
module WebRoller {
  import opened Wrappers
  import opened Faces
  import IntelligentDice

  /** The dict `roll_dice` returns. */
  datatype WebRoll = WebRoll(normalDice: seq<Face>, hungerDice: seq<Face>, successes: nat,
                             critical: bool, messyCritical: bool, bestialFailure: bool,
                             totalTens: nat, pairs: nat)

  /** `range(max(0, pool_size - hunger))` */
  function NormalCount(pool: int, hunger: int): nat {
    if pool - hunger > 0 then pool - hunger else 0
  }

  /** `range(hunger)`: no draws at all for a negative Hunger. */
  function HungerDiceCount(hunger: int): nat {
    if hunger > 0 then hunger else 0
  }

  /** The classification of lines 183-200 over the two lists of faces. */
  function ClassifyWeb(normal: seq<Face>, hunger: seq<Face>): (r: WebRoll)
    ensures r.normalDice == normal && r.hungerDice == hunger
    ensures r.successes == CountAtLeast(normal + hunger, 6)
    ensures r.totalTens == CountEqual(normal + hunger, 10) && r.pairs == r.totalTens / 2
    ensures r.critical <==> r.totalTens >= 2
    ensures r.messyCritical <==> r.critical && exists i :: 0 <= i < |hunger| && hunger[i] == 10
    ensures r.bestialFailure <==> r.successes == 0 && exists i :: 0 <= i < |hunger| && hunger[i] == 1
  {
    CountEqualConcat(normal, hunger, 10);
    var successes := CountAtLeast(normal + hunger, 6);
    var hungerTens := CountEqual(hunger, 10);
    var totalTens := CountEqual(normal, 10) + hungerTens;
    var pairs := totalTens / 2;
    var critical := pairs > 0;
    WebRoll(normal, hunger, successes, critical, critical && hungerTens > 0,
            successes == 0 && CountEqual(hunger, 1) > 0, totalTens, pairs)
  }

  /** `roll_dice(pool_size, hunger)`: the normal dice are drawn first, then the Hunger dice. */
  function RollWeb(pool: int, hunger: int, die: nat -> Face): (r: WebRoll)
    ensures r == ClassifyWeb(r.normalDice, r.hungerDice)
    ensures |r.normalDice| == NormalCount(pool, hunger) && |r.hungerDice| == HungerDiceCount(hunger)
    ensures forall i :: 0 <= i < |r.normalDice| ==> r.normalDice[i] == die(i)
    ensures forall i :: 0 <= i < |r.hungerDice| ==> r.hungerDice[i] == die(|r.normalDice| + i)
  {
    var n := NormalCount(pool, hunger);
    ClassifyWeb(IntelligentDice.Draw(die, 0, n), IntelligentDice.Draw(die, n, HungerDiceCount(hunger)))
  }

  /**
   * The Hunger dice are not clamped to the pool: with a Hunger of at least 0, the dice rolled
   * add up to the pool exactly when the Hunger does not exceed it, and to the Hunger otherwise.
   */
  lemma WebCountsMatchPoolOnlyUpToPool(pool: int, hunger: int, die: nat -> Face)
    requires hunger >= 0
    ensures var r := RollWeb(pool, hunger, die);
            (|r.normalDice| + |r.hungerDice| == pool <==> hunger <= pool) &&
            (hunger > pool ==> |r.normalDice| + |r.hungerDice| == hunger)
  {
  }

  /** A critical needs two tens, and tens are successes, so a roll is never both critical and a Bestial Failure. */
  lemma BestialFailureIsNeverCritical(normal: seq<Face>, hunger: seq<Face>)
    ensures var r := ClassifyWeb(normal, hunger);
            !(r.bestialFailure && r.critical) && (r.messyCritical ==> r.critical)
  {
    TensAreSuccesses(normal + hunger);
  }

  /** Pairs of tens add nothing here: the count is the number of faces of at least 6, never above the dice rolled. */
  lemma SuccessesAreFacesAboveFive(normal: seq<Face>, hunger: seq<Face>)
    ensures var r := ClassifyWeb(normal, hunger);
            r.successes == CountAtLeast(normal, 6) + CountAtLeast(hunger, 6) && r.successes <= |normal| + |hunger|
  {
    CountAtLeastConcat(normal, hunger, 6);
  }

  // ---------------------------------------------------------------------------------------
  // The `/roll` endpoint's guard

  /** A request's body: `data.get('pool', 0)` and `data.get('hunger', 0)`. */
  datatype RollRequest = RollRequest(pool: Option<int>, hunger: Option<int>)

  /** What the endpoint does with a request: a 400 error, or a roll. */
  datatype RollResponse = BadRequest(error: string) | Rolled(roll: WebRoll)

  const PoolTooSmallError: string := "Pool size must be at least 1"
  const TooMuchHungerError: string := "Hunger dice cannot exceed pool size"

  /** The two checks of lines 312-316, as written: a pool of at least 1 and Hunger not above it. */
  function GuardError(pool: int, hunger: int): (e: Option<string>)
    ensures e.None? <==> 1 <= pool && hunger <= pool
    ensures pool < 1 ==> e == Some(PoolTooSmallError)
    ensures 1 <= pool < hunger ==> e == Some(TooMuchHungerError)
  {
    if pool < 1 then Some(PoolTooSmallError)
    else if hunger > pool then Some(TooMuchHungerError)
    else None
  }

  /** The endpoint as written: guard, then roll with the request's values (missing ones are 0). */
  function RollEndpoint(req: RollRequest, die: nat -> Face): (r: RollResponse)
    ensures r.Rolled? <==> GuardError(req.pool.GetOr(0), req.hunger.GetOr(0)).None?
    ensures r.Rolled? ==> r.roll == RollWeb(req.pool.GetOr(0), req.hunger.GetOr(0), die)
  {
    var pool := req.pool.GetOr(0);
    var hunger := req.hunger.GetOr(0);
    match GuardError(pool, hunger)
    case Some(e) => BadRequest(e)
    case None => Rolled(RollWeb(pool, hunger, die))
  }

  /** A request without a pool is refused: the default pool is 0. */
  lemma MissingPoolIsRefused(hunger: Option<int>, die: nat -> Face)
    ensures RollEndpoint(RollRequest(None, hunger), die) == BadRequest(PoolTooSmallError)
  {
  }

  /**
   * The guard lets a negative Hunger through, and then more dice are rolled than the pool
   * holds: pool 3 with Hunger -1 rolls four normal dice and no Hunger dice.
   */
  lemma NegativeHungerOverdraws(die: nat -> Face)
    ensures var r := RollEndpoint(RollRequest(Some(3), Some(-1)), die);
            r.Rolled? && |r.roll.normalDice| == 4 && |r.roll.hungerDice| == 0
  {
  }

  /** The guard with the check it evidently needs: Hunger must also be at least 0. */
  function CheckedGuardError(pool: int, hunger: int): (e: Option<string>)
    ensures e.None? <==> 1 <= pool && 0 <= hunger <= pool
  {
    if hunger < 0 then Some("Hunger must be at least 0") else GuardError(pool, hunger)
  }

  /** The endpoint with the checked guard. */
  function CheckedRollEndpoint(req: RollRequest, die: nat -> Face): (r: RollResponse)
    ensures r.Rolled? <==> CheckedGuardError(req.pool.GetOr(0), req.hunger.GetOr(0)).None?
    ensures r.Rolled? ==> r.roll == RollWeb(req.pool.GetOr(0), req.hunger.GetOr(0), die)
  {
    var pool := req.pool.GetOr(0);
    var hunger := req.hunger.GetOr(0);
    match CheckedGuardError(pool, hunger)
    case Some(e) => BadRequest(e)
    case None => Rolled(RollWeb(pool, hunger, die))
  }

  /** Behind the checked guard every die of the pool is rolled once: Hunger dice as asked, the rest normal. */
  lemma CheckedRollUsesWholePool(req: RollRequest, die: nat -> Face)
    requires CheckedRollEndpoint(req, die).Rolled?
    ensures var r := CheckedRollEndpoint(req, die).roll;
            |r.normalDice| + |r.hungerDice| == req.pool.GetOr(0) && |r.hungerDice| == req.hunger.GetOr(0)
  {
  }

  // ---------------------------------------------------------------------------------------
  // The two rollers side by side

  /** Regular [5] and Hunger [1, 1, 2]: a Bestial Failure here, never one for the engine. */
  lemma ClassifiersDisagreeOnBestialFailure(difficulty: int)
    ensures ClassifyWeb([5], [1, 1, 2]).bestialFailure
    ensures !IntelligentDice.Classify([5], [1, 1, 2], difficulty).bestialFailure
  {
    var regular: seq<Face> := [5];
    var hunger: seq<Face> := [1, 1, 2];
    SuccessesAreFacesAboveFive(regular, hunger);
    assert hunger[0] == 1;
    assert hunger[2] != 1;
  }

  /** Regular [3, 7, 9] and Hunger [10, 10]: four successes here, six for the engine, both messy. */
  lemma ClassifiersDisagreeOnPairs()
    ensures var r := ClassifyWeb([3, 7, 9], [10, 10]);
            r.successes == 4 && r.pairs == 1 && r.messyCritical && !r.bestialFailure
    ensures IntelligentDice.Classify([3, 7, 9], [10, 10], 0).totalSuccesses == 6
  {
    var regular: seq<Face> := [3, 7, 9];
    var hunger: seq<Face> := [10, 10];
    SuccessesAreFacesAboveFive(regular, hunger);
    assert hunger[0] == 10;
  }
}
