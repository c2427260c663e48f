/**
 * The player entity: role, cumulative experience with the level derived from
 * it through the experience curve, one exclusive task slot and a map of
 * currency balances.
 */
module Players {
  import opened Options
  import opened Static

  /** Experience e brackets L: levels 1..L are reached and level L + 1 is not
    * (or L is the last level of the table). */
  ghost predicate Brackets(e: int, L: nat)
  {
    L <= MaxLevel && (L == 0 || Total(L) <= e) && (L == MaxLevel || e < Total(L + 1))
  }

  /** Levels that experience e completes when levels 1..i are already
    * completed: scan upward while the next threshold is reached. */
  function CompletedFrom(e: int, i: nat): (L: nat)
    requires i <= MaxLevel
    ensures i <= L <= MaxLevel
    decreases MaxLevel - i
  {
    if i < MaxLevel && Total(i + 1) <= e then CompletedFrom(e, i + 1) else i
  }

  /** Started from a reached level, the scan stops at the bracketed one. */
  lemma {:induction false} CompletedFromBrackets(e: int, i: nat)
    requires i <= MaxLevel
    requires i == 0 || Total(i) <= e
    ensures Brackets(e, CompletedFrom(e, i))
    decreases MaxLevel - i
  {
    if i < MaxLevel && Total(i + 1) <= e {
      CompletedFromBrackets(e, i + 1);
    } else {
      assert CompletedFrom(e, i) == i;
    }
  }

  /** Number of table levels that experience e has completed (0..100). */
  function Completed(e: int): (L: nat)
    ensures L <= MaxLevel
  {
    CompletedFrom(e, 0)
  }

  /** Completed(e) is bracketed by the thresholds around e. */
  lemma CompletedBrackets(e: int)
    ensures Brackets(e, Completed(e))
  {
    CompletedFromBrackets(e, 0);
  }

  /** Two levels c and L with Total(c) <= e and e < Total(L + 1): c <= L. */
  lemma ThresholdsOrder(e: int, c: nat, L: nat)
    requires c <= MaxLevel && (c == 0 || Total(c) <= e)
    requires L <= MaxLevel && (L == MaxLevel || e < Total(L + 1))
    ensures c <= L
  {
    if L < c {
      TotalMonotone(L + 1, c);
      assert false;
    }
  }

  /** Any L that sits between two consecutive thresholds around e is Completed(e). */
  lemma CompletedUnique(e: int, L: nat)
    requires L <= MaxLevel
    requires L == 0 || Total(L) <= e
    requires L == MaxLevel || e < Total(L + 1)
    ensures Completed(e) == L
  {
    var c := Completed(e);
    CompletedBrackets(e);
    ThresholdsOrder(e, c, L);
    ThresholdsOrder(e, L, c);
  }

  /** Where the forward scan stops: at the first level i whose threshold e
    * misses (or past the table), having completed levels 1..i - 1. */
  lemma ScanStop(oldLevel: int, e: int, i: nat)
    requires 1 <= i <= MaxLevel + 1
    requires i == 1 || Total(i - 1) <= e
    requires i == MaxLevel + 1 || e < Total(i)
    ensures Completed(e) == i - 1
    ensures LevelFor(oldLevel, e) == if i == 1 then oldLevel else i
    ensures ExpInLevel(e) == e - Total(i - 1)
  {
    CompletedUnique(e, i - 1);
  }

  /** More experience never completes fewer levels. */
  lemma CompletedMonotone(e1: int, e2: int)
    requires e1 <= e2
    ensures Completed(e1) <= Completed(e2)
  {
    CompletedBrackets(e1);
    CompletedBrackets(e2);
    ThresholdsOrder(e2, Completed(e1), Completed(e2));
  }

  /** The level after a recomputation from experience e: one past the last
    * completed level, or the previous level when no level is completed. */
  function LevelFor(oldLevel: int, e: int): int
  {
    if Completed(e) >= 1 then Completed(e) + 1 else oldLevel
  }

  /** Experience accrued inside the current level. */
  function ExpInLevel(e: int): int
  {
    e - Total(Completed(e))
  }

  /** Inside the table, the in-level experience lies below the cost of the next level. */
  lemma ExpInLevelBounds(oldLevel: int, e: int)
    requires 0 <= e < Total(MaxLevel)
    ensures Completed(e) < MaxLevel
    ensures 0 <= ExpInLevel(e) < Cost(Completed(e) + 1)
    ensures e >= Total(1) ==> LevelFor(oldLevel, e) == Completed(e) + 1 >= 2
    ensures e < Total(1) ==> LevelFor(oldLevel, e) == oldLevel && ExpInLevel(e) == e
  {
    CompletedBrackets(e);
    if e >= Total(1) {
      TotalMonotone(1, Completed(e) + 1);
    } else {
      CompletedUnique(e, 0);
    }
  }

  /** Past the table, the level stays at 101 and the in-level experience keeps growing. */
  lemma LevelCapBeyondTable(oldLevel: int, e: int)
    requires e >= Total(MaxLevel)
    ensures LevelFor(oldLevel, e) == MaxLevel + 1
    ensures ExpInLevel(e) == e - Total(MaxLevel)
  {
    CompletedUnique(e, MaxLevel);
  }

  /** Recomputing from level 1 gives exactly one past the completed levels. */
  lemma LevelFromFirst(e: int)
    ensures LevelFor(1, e) == Completed(e) + 1
  {
  }

  /** Experience 10 and 13 both complete level 1 only. */
  lemma FirstLevelCompleted(oldLevel: int)
    ensures Completed(10) == 1 && ExpInLevel(10) == 0 && LevelFor(oldLevel, 10) == 2
    ensures Completed(13) == 1 && ExpInLevel(13) == 3 && LevelFor(oldLevel, 13) == 2
  {
    CurveStart();
    CompletedUnique(10, 1);
    CompletedUnique(13, 1);
  }

  /** Currencies a new player holds. */
  const SilverCoin: string := "silverCoin"
  const RoyalPoint: string := "royalPoint"

  predicate NonNegative(balances: map<string, int>)
  {
    forall c :: c in balances ==> balances[c] >= 0
  }

  /** A currency update: rejected (None) for an unknown code or a balance
    * that would drop below zero; otherwise only that balance changes. */
  function ApplyCurrency(balances: map<string, int>, code: string, amount: int): (r: Option<map<string, int>>)
    ensures r.Some? <==> code in balances && balances[code] + amount >= 0
    ensures r.Some? ==> r.value.Keys == balances.Keys && r.value[code] == balances[code] + amount
    ensures r.Some? ==> forall c :: c in balances && c != code ==> r.value[c] == balances[c]
  {
    if code !in balances then None
    else if balances[code] + amount < 0 then None
    else Some(balances[code := balances[code] + amount])
  }

  /** Accepted updates keep every balance non-negative. */
  lemma ApplyCurrencyKeepsNonNegative(balances: map<string, int>, code: string, amount: int)
    requires NonNegative(balances)
    requires ApplyCurrency(balances, code, amount).Some?
    ensures NonNegative(ApplyCurrency(balances, code, amount).value)
  {
    var r := ApplyCurrency(balances, code, amount).value;
    forall c | c in r ensures r[c] >= 0 {
      if c != code {
        assert r[c] == balances[c];
      }
    }
  }

  /** Adding an amount and then taking it back restores the balances. */
  lemma ApplyCurrencyUndo(balances: map<string, int>, code: string, amount: int)
    requires NonNegative(balances)
    requires ApplyCurrency(balances, code, amount).Some?
    ensures ApplyCurrency(ApplyCurrency(balances, code, amount).value, code, -amount) == Some(balances)
  {
    var r := ApplyCurrency(balances, code, amount).value;
    assert r[code := r[code] - amount] == balances;
  }

  /** The attribute record exchanged with the store. */
  datatype PlayerRecord = PlayerRecord(
    dcId: string,
    dcTag: string,
    guildId: string,
    role: int,
    level: int,
    exp: int,
    currentTaskId: Option<string>,
    currencies: map<string, int>)

  class Player {
    const dcId: string
    const guildId: string
    var dcTag: string
    var role: int
    var level: int
    var exp: int
    var expCurrentLevel: int
    var currentTaskId: Option<string>
    var currencies: map<string, int>

    /** The object invariant: the derived level fields agree with exp
      * (the level only where some level has been completed). */
    ghost predicate Valid()
      reads this`level, this`exp, this`expCurrentLevel
    {
      && level >= 1
      && expCurrentLevel == ExpInLevel(exp)
      && (Completed(exp) >= 1 ==> level == Completed(exp) + 1)
    }

    /** The level is exactly the one exp determines. */
    ghost predicate Consistent()
      reads this`level, this`exp
    {
      level == Completed(exp) + 1
    }

    constructor (dcId: string, dcTag: string, guildId: string, role: int := Member)
      ensures Valid() && Consistent()
      ensures this.dcId == dcId && this.dcTag == dcTag && this.guildId == guildId && this.role == role
      ensures level == 1 && exp == 0 && expCurrentLevel == 0
      ensures currentTaskId == None
      ensures currencies == map[SilverCoin := 0, RoyalPoint := 0]
    {
      this.dcId := dcId;
      this.guildId := guildId;
      this.dcTag := dcTag;
      this.role := role;
      level := 1;
      exp := 0;
      expCurrentLevel := 0;
      currentTaskId := None;
      currencies := map[SilverCoin := 0, RoyalPoint := 0];
      CompletedUnique(0, 0);
    }

    predicate HasTask()
      reads this`currentTaskId
    {
      currentTaskId.Some?
    }

    /** Takes the task slot when it is free; a held slot rejects and stays as it was. */
    method AcceptTask(taskId: string) returns (accepted: bool)
      modifies this`currentTaskId
      ensures accepted <==> old(currentTaskId) == None
      ensures currentTaskId == if accepted then Some(taskId) else old(currentTaskId)
      ensures HasTask()
    {
      if HasTask() {
        return false;
      }
      currentTaskId := Some(taskId);
      return true;
    }

    /** Recomputes level and expCurrentLevel by the forward scan over the
      * thresholds of levels 1..100, stopping at the first one exp misses. */
    method UpdateLevel()
      requires level >= 1
      modifies this`level, this`expCurrentLevel
      ensures level == LevelFor(old(level), exp)
      ensures expCurrentLevel == ExpInLevel(exp)
      ensures Valid()
    {
      expCurrentLevel := exp;
      var i := 1;
      while i <= MaxLevel
        invariant 1 <= i <= MaxLevel + 1
        invariant Total(i - 1) <= exp || i == 1
        invariant expCurrentLevel == exp - Total(i - 1)
        invariant level == if i == 1 then old(level) else i
      {
        if exp >= Total(i) {
          level := i + 1;
          expCurrentLevel := expCurrentLevel - Cost(i);
        } else {
          break;
        }
        i := i + 1;
      }
      ScanStop(old(level), exp, i);
    }

    /** Adds experience (any sign) and recomputes the level. */
    method UpdateExp(delta: int)
      requires Valid()
      modifies this`exp, this`level, this`expCurrentLevel
      ensures exp == old(exp) + delta
      ensures level == LevelFor(old(level), exp)
      ensures expCurrentLevel == ExpInLevel(exp)
      ensures Valid()
      ensures old(Consistent()) && delta >= 0 ==> Consistent()
    {
      exp := exp + delta;
      UpdateLevel();
      if delta >= 0 {
        CompletedMonotone(old(exp), exp);
      }
    }

    /** Applies a currency change, with no change at all on rejection. */
    method UpdateCurrency(code: string, amount: int) returns (updated: bool)
      modifies this`currencies
      ensures updated <==> code in old(currencies) && old(currencies)[code] + amount >= 0
      ensures currencies == if updated then ApplyCurrency(old(currencies), code, amount).value else old(currencies)
      ensures NonNegative(old(currencies)) ==> NonNegative(currencies)
    {
      if code !in currencies {
        return false;
      }
      if currencies[code] + amount < 0 {
        return false;
      }
      if NonNegative(currencies) {
        ApplyCurrencyKeepsNonNegative(currencies, code, amount);
      }
      currencies := currencies[code := currencies[code] + amount];
      return true;
    }

    /** Sets the role; no check against the known ordinals. */
    method UpdateRole(role: int)
      modifies this`role
      ensures this.role == role
    {
      this.role := role;
    }

    /** Snapshot for the store, after bringing the level up to date. */
    method ReturnAttributeToStore() returns (record: PlayerRecord)
      requires Valid()
      modifies this`level, this`expCurrentLevel
      ensures Valid()
      ensures level == LevelFor(old(level), exp) && expCurrentLevel == old(expCurrentLevel)
      ensures old(Consistent()) ==> level == old(level)
      ensures record == PlayerRecord(dcId, dcTag, guildId, role, level, exp, currentTaskId, currencies)
    {
      UpdateLevel();
      record := PlayerRecord(dcId, dcTag, guildId, role, level, exp, currentTaskId, currencies);
    }

    /** Loads role, exp, task slot and currencies from a record; the level is
      * recomputed from exp, and the record's ids and level are ignored. */
    method UpdateAttributeFromStore(record: PlayerRecord)
      requires Valid()
      modifies this`role, this`exp, this`level, this`expCurrentLevel, this`currentTaskId, this`currencies
      ensures Valid()
      ensures role == record.role && exp == record.exp
      ensures level == LevelFor(old(level), record.exp) && expCurrentLevel == ExpInLevel(record.exp)
      ensures currentTaskId == record.currentTaskId && currencies == record.currencies
    {
      role := record.role;
      exp := record.exp;
      UpdateLevel();
      currentTaskId := record.currentTaskId;
      currencies := record.currencies;
    }
  }

  /** Saving a player, then creating a new player with the same ids and tag
    * and loading the record into it, gives back the role, exp, in-level
    * experience, task and currencies; the level comes back equal whenever it
    * was consistent with exp. */
  method StoreRoundTrip(p: Player) returns (q: Player)
    requires p.Valid()
    modifies p`level, p`expCurrentLevel
    ensures fresh(q) && q.Valid()
    ensures q.dcId == p.dcId && q.dcTag == p.dcTag && q.guildId == p.guildId
    ensures q.role == p.role && q.exp == p.exp && q.expCurrentLevel == p.expCurrentLevel
    ensures q.currentTaskId == p.currentTaskId && q.currencies == p.currencies
    ensures q.Consistent()
    ensures p.Consistent() ==> q.level == p.level
  {
    var record := p.ReturnAttributeToStore();
    q := new Player(p.dcId, p.dcTag, p.guildId);
    q.UpdateAttributeFromStore(record);
    LevelFromFirst(q.exp);
  }

  /** Silver coin on a new player: a withdrawal below zero is rejected, a
    * deposit and the matching withdrawal are accepted. */
  method SilverCoinScenario() returns (results: seq<bool>, silver: int)
    ensures results == [false, true, true] && silver == 0
  {
    var p := new Player("u1", "tag1", "g1");
    var a := p.UpdateCurrency(SilverCoin, -5);
    var b := p.UpdateCurrency(SilverCoin, 5);
    var c := p.UpdateCurrency(SilverCoin, -5);
    results := [a, b, c];
    silver := p.currencies[SilverCoin];
  }

  /** Royal points on a new player: a deposit is accepted, an overdraft and
    * an unknown currency are rejected and change nothing. */
  method RoyalPointScenario() returns (results: seq<bool>, royal: int, silver: int)
    ensures results == [true, false, false] && royal == 100 && silver == 0
  {
    var p := new Player("u1", "tag1", "g1");
    var d := p.UpdateCurrency(RoyalPoint, 100);
    var e := p.UpdateCurrency(RoyalPoint, -150);
    var f := p.UpdateCurrency("unknownCoin", 1);
    results := [d, e, f];
    royal, silver := p.currencies[RoyalPoint], p.currencies[SilverCoin];
  }

  /** Experience 10 on a new player completes level 1 exactly; 3 more stay
    * inside level 2. */
  method LevelingScenario() returns (level1: int, inLevel1: int, level2: int, inLevel2: int)
    ensures level1 == 2 && inLevel1 == 0 && level2 == 2 && inLevel2 == 3
  {
    var p := new Player("u1", "tag1", "g1");
    p.UpdateExp(10);
    assert p.exp == 10;
    FirstLevelCompleted(1);
    level1, inLevel1 := p.level, p.expCurrentLevel;
    p.UpdateExp(3);
    assert p.exp == 13;
    level2, inLevel2 := p.level, p.expCurrentLevel;
  }

  /** A second acceptance fails and keeps the first task. */
  method TaskScenario() returns (first: bool, second: bool, held: Option<string>)
    ensures first && !second && held == Some("t1")
  {
    var p := new Player("u1", "tag1", "g1");
    first := p.AcceptTask("t1");
    second := p.AcceptTask("t2");
    held := p.currentTaskId;
  }
}
