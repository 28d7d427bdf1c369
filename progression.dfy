/**
 * The progression store of src/game/GameState.js: the currency balance, the
 * four upgrade levels, their prices, the all-or-nothing purchase, the reset to
 * defaults and the fallback rules for loading a saved game.
 */
module Progression {
  import opened Common

  datatype Kind = Speed | Weight | Aero | Fuel

  /** The session states the store records: 'menu', 'launching', 'flying', 'gameover'. */
  datatype Phase = Menu | Launching | Flying | GameOver

  /** The `upgrades` record. */
  datatype Levels = Levels(speed: int, weight: int, aero: int, fuel: int)
  {
    function Get(k: Kind): int
    {
      match k
      case Speed => speed
      case Weight => weight
      case Aero => aero
      case Fuel => fuel
    }

    /** `upgrades[type]++` */
    function Bump(k: Kind): (r: Levels)
      ensures r.Get(k) == Get(k) + 1
      ensures forall j: Kind :: j != k ==> r.Get(j) == Get(j)
    {
      match k
      case Speed => this.(speed := speed + 1)
      case Weight => this.(weight := weight + 1)
      case Aero => this.(aero := aero + 1)
      case Fuel => this.(fuel := fuel + 1)
    }
  }

  /** Speed, weight and aero start at level 1; fuel starts locked at level 0. */
  const DefaultLevels: Levels := Levels(1, 1, 1, 0)

  /** The `currentRun` record; `startTime` is a clock reading in milliseconds. */
  datatype Run = Run(distance: int, maxAltitude: int, moneyEarned: int, starsCollected: int, startTime: int)

  const EmptyRun: Run := Run(0, 0, 0, 0, 0)

  /** The balance and levels that are saved and restored. */
  datatype Progress = Progress(money: int, levels: Levels)

  const DefaultProgress: Progress := Progress(0, DefaultLevels)

  /**
   * What the 'flightGameSave' entry yields once read back: nothing stored, a
   * text that does not parse (or parses to something whose fields cannot be
   * read), or a parsed record whose `money` is either falsy or missing (None)
   * or a number, and whose `upgrades` is either missing (None) or a record.
   */
  datatype Saved = NoSave | Unparseable | Parsed(money: Option<int>, upgrades: Option<Levels>)

  function BaseCost(k: Kind): nat
  {
    match k
    case Speed => 50
    case Weight => 75
    case Aero => 100
    case Fuel => 200
  }

  /** The level a kind starts at, which is priced at exactly its base cost. */
  function Offset(k: Kind): nat
  {
    if k == Fuel then 0 else 1
  }

  /**
   * getUpgradeCost: floor(base * 1.5^(level - offset)), with 1.5^e written as
   * 3^e / 2^e, so that the floor is integer division.
   */
  function Cost(k: Kind, level: int): nat
  {
    var e := level - Offset(k);
    if e >= 0 then BaseCost(k) * Pow(3, e) / Pow(2, e)
    else BaseCost(k) * Pow(2, -e) / Pow(3, -e)
  }

  /** Cost is the floor of base * 1.5^e: the largest c with c * 2^e <= base * 3^e. */
  lemma CostIsFloor(k: Kind, level: int)
    requires level >= Offset(k)
    ensures var e := level - Offset(k);
      Cost(k, level) * Pow(2, e) <= BaseCost(k) * Pow(3, e) < (Cost(k, level) + 1) * Pow(2, e)
  {
    var e := level - Offset(k);
    var n, d := BaseCost(k) * Pow(3, e), Pow(2, e);
    assert Cost(k, level) == n / d;
    DivFloor(n, d);
  }

  /**
   * Below the starting level (a level only a loaded save can hold) the price is
   * the floor of base / 1.5^m with m = offset - level: the largest c with
   * c * 3^m <= base * 2^m.
   */
  lemma CostIsFloorBelow(k: Kind, level: int)
    requires level < Offset(k)
    ensures var m := Offset(k) - level;
      Cost(k, level) * Pow(3, m) <= BaseCost(k) * Pow(2, m) < (Cost(k, level) + 1) * Pow(3, m)
  {
    var m := Offset(k) - level;
    var n, d := BaseCost(k) * Pow(2, m), Pow(3, m);
    assert Cost(k, level) == n / d;
    DivFloor(n, d);
  }

  /** From its starting level on, a price is never below the base cost. */
  lemma CostAtLeastBase(k: Kind, level: int)
    requires level >= Offset(k)
    ensures Cost(k, level) >= BaseCost(k)
  {
    var e := level - Offset(k);
    PowTwoBelowThree(e);
    var b, t, p := BaseCost(k), Pow(3, e), Pow(2, e);
    assert b * p <= b * t;
    DivLowerBound(b * t, p, b);
  }

  /** Scaling by 3/2 raises a floor of at least 2. */
  lemma ThreeHalvesStep(n: int, d: int)
    requires d > 0 && n / d >= 2
    ensures (3 * n) / (2 * d) > n / d
  {
    var c := n / d;
    assert c * d <= n by {
      assert n == c * d + n % d && n % d >= 0;
    }
    assert (c + 1) * (2 * d) <= 3 * n by {
      assert (c + 1) * (2 * d) == 2 * (c * d) + 2 * d;
      assert 2 * d <= c * d;
    }
    DivLowerBound(3 * n, 2 * d, c + 1);
  }

  /** The arithmetic of a price step: scaling base * t / p by 3/2 raises its floor when t >= p. */
  lemma ScaledFloorGrows(b: int, t: int, p: int)
    requires b >= 50 && t >= p > 0
    ensures (b * (3 * t)) / (2 * p) > (b * t) / p
  {
    assert b * p <= b * t;
    DivLowerBound(b * t, p, b);
    assert b * (3 * t) == 3 * (b * t);
    ThreeHalvesStep(b * t, p);
  }

  /** Each purchase raises the price: cost(kind, level + 1) > cost(kind, level). */
  lemma CostIncreases(k: Kind, level: int)
    requires level >= Offset(k)
    ensures Cost(k, level + 1) > Cost(k, level)
  {
    var e := level - Offset(k);
    PowStep(3, e);
    PowStep(2, e);
    PowTwoBelowThree(e);
    ScaledFloorGrows(BaseCost(k), Pow(3, e), Pow(2, e));
  }

  /** The prices the shop shows at the default levels, and one step above. */
  lemma DefaultPrices()
    ensures Cost(Speed, 1) == 50 && Cost(Weight, 1) == 75 && Cost(Aero, 1) == 100 && Cost(Fuel, 0) == 200
    ensures Cost(Speed, 2) == 75 && Cost(Fuel, 1) == 300 && Cost(Aero, 3) == 225
  {
  }

  /** The outcome of upgradestat: whether it succeeded, and the new balance and levels. */
  datatype Purchase = Purchase(ok: bool, after: Progress)

  /** upgradestat on a given balance and levels. */
  function Buy(p: Progress, k: Kind): Purchase
  {
    var cost := Cost(k, p.levels.Get(k));
    if p.money >= cost then Purchase(true, Progress(p.money - cost, p.levels.Bump(k)))
    else Purchase(false, p)
  }

  /**
   * A purchase is all or nothing: it succeeds iff the balance covers the price;
   * then the balance drops by exactly the price and only the bought level rises,
   * by exactly one; otherwise nothing changes.
   */
  lemma BuyIsAtomic(p: Progress, k: Kind)
    ensures var r := Buy(p, k); var cost := Cost(k, p.levels.Get(k));
      && (r.ok <==> p.money >= cost)
      && (r.ok ==> r.after.money == p.money - cost
                   && r.after.levels.Get(k) == p.levels.Get(k) + 1
                   && forall j: Kind :: j != k ==> r.after.levels.Get(j) == p.levels.Get(j))
      && (!r.ok ==> r.after == p)
  {
  }

  /** A purchase never takes a non-negative balance below zero. */
  lemma BuyKeepsBalance(p: Progress, k: Kind)
    requires p.money >= 0
    ensures Buy(p, k).after.money >= 0
    ensures Buy(p, k).after.money <= p.money
  {
  }

  /** After a successful purchase, the next level of that kind costs strictly more. */
  lemma BuyRaisesPrice(p: Progress, k: Kind)
    requires p.levels.Get(k) >= Offset(k)
    requires Buy(p, k).ok
    ensures Cost(k, Buy(p, k).after.levels.Get(k)) > Cost(k, p.levels.Get(k))
  {
    CostIncreases(k, p.levels.Get(k));
  }

  /** The scenarios of a fresh store: nothing is affordable with 0; speed is with 100. */
  lemma BuyScenarios()
    ensures !Buy(DefaultProgress, Speed).ok && Buy(DefaultProgress, Speed).after == DefaultProgress
    ensures Buy(Progress(100, DefaultLevels), Speed) == Purchase(true, Progress(50, Levels(2, 1, 1, 0)))
  {
    assert Cost(Speed, 1) == 50;
  }

  /** The fields loadProgress leaves behind, starting from `current`. */
  function Restore(saved: Saved, current: Progress): Progress
  {
    match saved
    case NoSave => current
    case Unparseable => current
    case Parsed(m, u) =>
      Progress(if m.Some? then m.value else 0,
               if u.Some? then u.value else current.levels)
  }

  /** saveProgress: the record JSON.stringify writes reads back as both fields present. */
  function Snapshot(p: Progress): Saved
  {
    Parsed(Some(p.money), Some(p.levels))
  }

  /**
   * Loading falls back: no save or an unparseable save keeps the current
   * fields; a falsy or missing money reads as 0, missing upgrades keep the
   * current levels.
   */
  lemma RestoreFallback(saved: Saved, current: Progress)
    ensures saved.NoSave? || saved.Unparseable? ==> Restore(saved, current) == current
    ensures saved.Parsed? && saved.money.None? ==> Restore(saved, current).money == 0
    ensures saved.Parsed? && saved.upgrades.None? ==> Restore(saved, current).levels == current.levels
    ensures saved.Parsed? && saved.upgrades.Some? ==> Restore(saved, current).levels == saved.upgrades.value
  {
  }

  /** What is saved is what is loaded: restoring a snapshot ignores the fields it overwrites. */
  lemma RestoreSnapshot(p: Progress, current: Progress)
    ensures Restore(Snapshot(p), current) == p
  {
  }

  class GameState {
    var state: Phase
    var money: int
    var currentRun: Run
    var upgrades: Levels
    /** The 'flightGameSave' entry of the browser's local storage. */
    var store: Saved

    function Current(): Progress
      reads this
    {
      Progress(money, upgrades)
    }

    /** getUpgradeCost */
    function UpgradeCost(k: Kind): nat
      reads this
    {
      Cost(k, upgrades.Get(k))
    }

    /** The constructor sets the defaults, then runs loadProgress on what `saved` holds. */
    constructor (saved: Saved)
      ensures state == Menu && currentRun == EmptyRun && store == saved
      ensures Current() == Restore(saved, DefaultProgress)
    {
      state := Menu;
      money := 0;
      currentRun := EmptyRun;
      upgrades := DefaultLevels;
      store := saved;
      new;
      LoadProgress();
    }

    method LoadProgress()
      modifies this
      ensures Current() == Restore(old(store), old(Current()))
      ensures state == old(state) && currentRun == old(currentRun) && store == old(store)
    {
      var p := Restore(store, Current());
      money := p.money;
      upgrades := p.levels;
    }

    method SaveProgress()
      modifies this`store
      ensures store == Snapshot(Current())
    {
      store := Snapshot(Current());
    }

    /** upgradestat: buy one level of `k` if the balance covers its price. */
    method UpgradeStat(k: Kind) returns (ok: bool)
      modifies this
      ensures Purchase(ok, Current()) == Buy(old(Current()), k)
      ensures ok ==> store == Snapshot(Current())
      ensures !ok ==> store == old(store)
      ensures state == old(state) && currentRun == old(currentRun)
    {
      var cost := UpgradeCost(k);
      if money >= cost {
        money := money - cost;
        upgrades := upgrades.Bump(k);
        SaveProgress();
        return true;
      }
      return false;
    }

    /** resetProgress: back to balance 0 and the default levels, whatever came before. */
    method ResetProgress()
      modifies this
      ensures Current() == DefaultProgress && store == Snapshot(DefaultProgress)
      ensures state == old(state) && currentRun == old(currentRun)
    {
      money := 0;
      upgrades := DefaultLevels;
      SaveProgress();
    }
  }
}
