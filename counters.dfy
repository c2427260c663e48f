/**
 * The per-user daily activity counter: a text-chat and a voice-chat tally
 * for the current day, the user's ids, and the time of the last daily reset.
 * Times are milliseconds since the epoch; the caller supplies "now".
 */
module Counters {
  import opened Options

  /**
   * How a store record holds the last reset time: missing (null or
   * undefined), a millisecond number, or a date object. A date object is
   * always truthy; a number is truthy unless it is zero.
   */
  datatype StoredTime = Absent | Millis(ms: int) | DateValue(t: int)

  /** Loading a stored time: a falsy value reads as no time at all, anything
    * else becomes the date with that time value. */
  function LoadTime(s: StoredTime): (r: Option<int>)
    ensures r.None? <==> s.Absent? || s == Millis(0)
    ensures s.Millis? && s.ms != 0 ==> r == Some(s.ms)
    ensures s.DateValue? ==> r == Some(s.t)
  {
    match s
    case Absent => None
    case Millis(ms) => if ms == 0 then None else Some(ms)
    case DateValue(t) => Some(t)
  }

  /** Saving a time: the date object itself, or null. */
  function StoreTime(t: Option<int>): (s: StoredTime)
    ensures s.Absent? <==> t.None?
    ensures !s.Millis?
  {
    match t
    case None => Absent
    case Some(v) => DateValue(v)
  }

  /** Loading what was saved gives back the same time, the epoch included. */
  lemma LoadStoreTime(t: Option<int>)
    ensures LoadTime(StoreTime(t)) == t
  {
  }

  /** Saving is injective, so distinct times are never stored alike. */
  lemma StoreTimeInjective(t1: Option<int>, t2: Option<int>)
    requires StoreTime(t1) == StoreTime(t2)
    ensures t1 == t2
  {
    LoadStoreTime(t1);
    LoadStoreTime(t2);
  }

  /** The epoch saved as a bare number is lost on loading, unlike the same
    * time saved as a date object. */
  lemma EpochAsNumberIsLost()
    ensures LoadTime(Millis(0)) == None
    ensures LoadTime(DateValue(0)) == Some(0)
  {
  }

  /** The attribute record exchanged with the store. */
  datatype CounterRecord = CounterRecord(
    dcId: Option<string>,
    dcTag: Option<string>,
    textChatDailyCounter: int,
    voiceChatDailyCounter: int,
    lastResetTime: StoredTime)

  class UserDailyCounter {
    var dcId: Option<string>
    var dcTag: Option<string>
    var textChatDailyCounter: int
    var voiceChatDailyCounter: int
    var lastResetTime: Option<int>

    /** A fresh counter, with no ids, is reset at once: both tallies zero and
      * the reset time set to now. */
    constructor (now: int)
      ensures dcId == None && dcTag == None
      ensures textChatDailyCounter == 0 && voiceChatDailyCounter == 0
      ensures lastResetTime == Some(now)
    {
      dcId := None;
      dcTag := None;
      textChatDailyCounter := 0;
      voiceChatDailyCounter := 0;
      lastResetTime := None;
      new;
      ResetDaily(now);
    }

    method SetDcId(dcId: Option<string>)
      modifies this`dcId
      ensures this.dcId == dcId
    {
      this.dcId := dcId;
    }

    method SetDcTag(dcTag: Option<string>)
      modifies this`dcTag
      ensures this.dcTag == dcTag
    {
      this.dcTag := dcTag;
    }

    /** Starts a new day: the reset time becomes now and both tallies zero. */
    method ResetDaily(now: int)
      modifies this`lastResetTime, this`textChatDailyCounter, this`voiceChatDailyCounter
      ensures lastResetTime == Some(now)
      ensures textChatDailyCounter == 0 && voiceChatDailyCounter == 0
    {
      lastResetTime := Some(now);
      ResetAllCounters();
    }

    /** Adds exp (any sign) to the text tally. */
    method IncrementTextChatCounter(exp: int)
      modifies this`textChatDailyCounter
      ensures textChatDailyCounter == old(textChatDailyCounter) + exp
    {
      textChatDailyCounter := textChatDailyCounter + exp;
    }

    /** Adds exp (any sign) to the voice tally. */
    method IncrementVoiceChatCounter(exp: int)
      modifies this`voiceChatDailyCounter
      ensures voiceChatDailyCounter == old(voiceChatDailyCounter) + exp
    {
      voiceChatDailyCounter := voiceChatDailyCounter + exp;
    }

    /** Takes one off the text tally, with no floor at zero. */
    method DecrementTextChatCounter()
      modifies this`textChatDailyCounter
      ensures textChatDailyCounter == old(textChatDailyCounter) - 1
    {
      textChatDailyCounter := textChatDailyCounter - 1;
    }

    method ResetTextChatCounter()
      modifies this`textChatDailyCounter
      ensures textChatDailyCounter == 0
    {
      textChatDailyCounter := 0;
    }

    method ResetVoiceChatCounter()
      modifies this`voiceChatDailyCounter
      ensures voiceChatDailyCounter == 0
    {
      voiceChatDailyCounter := 0;
    }

    method ResetAllCounters()
      modifies this`textChatDailyCounter, this`voiceChatDailyCounter
      ensures textChatDailyCounter == 0 && voiceChatDailyCounter == 0
    {
      textChatDailyCounter := 0;
      voiceChatDailyCounter := 0;
    }

    function GetTextChatDailyCounter(): int
      reads this`textChatDailyCounter
    {
      textChatDailyCounter
    }

    function GetVoiceChatDailyCounter(): int
      reads this`voiceChatDailyCounter
    {
      voiceChatDailyCounter
    }

    /** Takes every attribute from the record as it is; the reset time goes
      * through LoadTime. */
    method UpdateAttributeFromStore(record: CounterRecord)
      modifies this`dcId, this`dcTag, this`textChatDailyCounter, this`voiceChatDailyCounter, this`lastResetTime
      ensures dcId == record.dcId && dcTag == record.dcTag
      ensures textChatDailyCounter == record.textChatDailyCounter
      ensures voiceChatDailyCounter == record.voiceChatDailyCounter
      ensures lastResetTime == LoadTime(record.lastResetTime)
    {
      dcId := record.dcId;
      dcTag := record.dcTag;
      textChatDailyCounter := record.textChatDailyCounter;
      voiceChatDailyCounter := record.voiceChatDailyCounter;
      lastResetTime := LoadTime(record.lastResetTime);
    }

    /** Snapshot for the store; nothing changes. */
    method ReturnAttributeToStore() returns (record: CounterRecord)
      ensures record.dcId == dcId && record.dcTag == dcTag
      ensures record.textChatDailyCounter == textChatDailyCounter
      ensures record.voiceChatDailyCounter == voiceChatDailyCounter
      ensures record.lastResetTime == StoreTime(lastResetTime)
      ensures LoadTime(record.lastResetTime) == lastResetTime
    {
      LoadStoreTime(lastResetTime);
      record := CounterRecord(dcId, dcTag, textChatDailyCounter, voiceChatDailyCounter, StoreTime(lastResetTime));
    }
  }

  /** Saving a counter and loading the record into a new one restores every
    * attribute. */
  method CounterStoreRoundTrip(c: UserDailyCounter, now: int) returns (d: UserDailyCounter)
    ensures fresh(d)
    ensures d.dcId == c.dcId && d.dcTag == c.dcTag
    ensures d.textChatDailyCounter == c.textChatDailyCounter
    ensures d.voiceChatDailyCounter == c.voiceChatDailyCounter
    ensures d.lastResetTime == c.lastResetTime
  {
    var record := c.ReturnAttributeToStore();
    d := new UserDailyCounter(now);
    d.UpdateAttributeFromStore(record);
  }

  /** A second daily reset leaves the tallies as the first one did; only
    * the reset time moves on. The ids are untouched. */
  method ResetDailyTwice(c: UserDailyCounter, now: int, later: int)
    modifies c
    ensures c.textChatDailyCounter == 0 && c.voiceChatDailyCounter == 0
    ensures c.lastResetTime == Some(later)
    ensures c.dcId == old(c.dcId) && c.dcTag == old(c.dcTag)
  {
    c.ResetDaily(now);
    c.ResetDaily(later);
  }

  /** A text message counted and then withdrawn leaves the tally as it was;
    * the voice tally and the reset time are untouched. */
  method IncrementThenDecrement(c: UserDailyCounter)
    modifies c`textChatDailyCounter
    ensures c.textChatDailyCounter == old(c.textChatDailyCounter)
    ensures c.voiceChatDailyCounter == old(c.voiceChatDailyCounter)
    ensures c.lastResetTime == old(c.lastResetTime)
    ensures c.dcId == old(c.dcId) && c.dcTag == old(c.dcTag)
  {
    c.IncrementTextChatCounter(1);
    c.DecrementTextChatCounter();
  }

  /** One day of activity on a new counter: the tallies accumulate, a text
    * decrement takes one off, and the next daily reset clears both. */
  method DailyScenario(now: int, tomorrow: int) returns (text: int, voice: int, textAfter: int, voiceAfter: int, since: Option<int>)
    ensures text == 14 && voice == 30
    ensures textAfter == 0 && voiceAfter == 0 && since == Some(tomorrow)
  {
    var c := new UserDailyCounter(now);
    c.IncrementTextChatCounter(10);
    c.IncrementTextChatCounter(5);
    c.DecrementTextChatCounter();
    c.IncrementVoiceChatCounter(30);
    text, voice := c.GetTextChatDailyCounter(), c.GetVoiceChatDailyCounter();
    c.ResetDaily(tomorrow);
    textAfter, voiceAfter, since := c.GetTextChatDailyCounter(), c.GetVoiceChatDailyCounter(), c.lastResetTime;
  }
}
