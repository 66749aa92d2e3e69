/**
 * The round countdown: a timer that edits a "Time left in the round" message
 * every few milliseconds, posts a final message when time is up, and keeps a
 * Countdown row in the database so that it survives a restart.
 *
 * Clocks are integer milliseconds passed in as `now`; setInterval is the
 * `scheduled` flag, which says whether the runtime still calls Tick.
 */
module Timer {
  import opened Wrappers
  import opened Js
  import opened Messaging

  // ---------------------------------------------------------------------------
  // formatTime
  // ---------------------------------------------------------------------------

  /** A number left-padded with "0" to at least two characters. */
  function Pad2(n: int): string {
    PadStart(IntToString(n), 2, '0')
  }

  /** PersistentTimer.formatTime: whole minutes, then seconds within the minute. */
  function FormatTime(milli: int): string {
    var minutes := milli / 60000;
    var seconds := JsRem(milli / 1000, 60);
    Pad2(minutes) + ":" + Pad2(seconds)
  }

  /** Reads "MM:SS" back: the two ':'-separated fields, each as parseInt reads it. */
  function ReadClock(s: string): (r: Option<(JsInt, JsInt)>)
    ensures r.Some? <==> |Split(s, {':'})| == 2
  {
    var parts := Split(s, {':'});
    if |parts| == 2 then Some((ParseInt(parts[0]), ParseInt(parts[1]))) else None
  }

  /** The text of the countdown message. */
  function CountdownText(left: string): string {
    "Time left in the round: `" + left + "`"
  }

  /**
   * For a non-negative duration, formatTime writes two fields: the seconds
   * are in 0..59 and minutes * 60 + seconds is the number of whole seconds.
   */
  lemma FormatTimeFields(ms: int)
    requires ms >= 0
    ensures var r := ReadClock(FormatTime(ms));
            && r.Some? && r.value.0.Num? && r.value.1.Num?
            && 0 <= r.value.1.value < 60
            && r.value.0.value * 60 + r.value.1.value == ms / 1000
  {
    var minutes, seconds := ms / 60000, (ms / 1000) % 60;
    assert JsRem(ms / 1000, 60) == seconds;
    DivideInStages(ms);
    ReadClockOfFields(minutes, seconds);
  }

  /** Two non-negative fields written as formatTime writes them read back as themselves. */
  lemma ReadClockOfFields(minutes: int, seconds: int)
    requires minutes >= 0 && seconds >= 0
    ensures ReadClock(Pad2(minutes) + ":" + Pad2(seconds)) == Some((Num(minutes), Num(seconds)))
  {
    Pad2Digits(minutes);
    Pad2Digits(seconds);
    var a, b := Pad2(minutes), Pad2(seconds);
    SplitClock(a, b);
    ParseDigits(a);
    ParseDigits(b);
  }

  /** Two fields without a colon, joined by one, split back into the two. */
  lemma SplitClock(a: string, b: string)
    requires NoneOf(a, {':'}) && NoneOf(b, {':'})
    ensures Split(a + ":" + b, {':'}) == [a, b]
  {
    assert a + ":" + b == a + [':'] + b;
    SplitCons(a, ':', b, {':'});
    SplitNoSeparator(b, {':'});
  }

  /** A whole digit string parses as its value. */
  lemma ParseDigits(s: string)
    requires s != [] && AllDigits(s)
    ensures ParseInt(s) == Num(DigitsValue(s))
  {
    assert s + [] == s;
    ParseIntOfDigits(s, []);
  }

  /** Whole minutes and seconds within the minute add back up to the whole seconds. */
  lemma DivideInStages(ms: int)
    requires ms >= 0
    ensures (ms / 60000) * 60 + (ms / 1000) % 60 == ms / 1000
  {
    var q, r := ms / 1000, ms % 1000;
    var a, b := q / 60, q % 60;
    assert ms == 60000 * a + (1000 * b + r);
    assert 0 <= 1000 * b + r < 60000;
  }

  /** A non-negative number padded to two places is a digit string of the same value. */
  lemma Pad2Digits(n: int)
    requires n >= 0
    ensures AllDigits(Pad2(n)) && NoneOf(Pad2(n), {':'})
    ensures DigitsValue(Pad2(n)) == n
  {
    var s := NatToString(n);
    DigitsValueOfNatToString(n);
    assert IntToString(n) == s;
    if n < 10 {
      assert Repeat('0', 1) == "0";
      assert Pad2(n) == "0" + s;
      LeadingZero(s);
    } else {
      assert Pad2(n) == s;
    }
    var p := Pad2(n);
    forall i | 0 <= i < |p|
      ensures p[i] !in {':'}
    {
      assert IsDigit(p[i]);
    }
  }

  /** Zero pads to "00". */
  lemma Pad2Zero()
    ensures Pad2(0) == "00"
  {
    assert IntToString(0) == "0";
    assert Repeat('0', 1) == "0";
  }

  /** A negative number of minutes shows a leading minus sign. */
  lemma FormatTimeNegative(ms: int)
    requires ms < 0
    ensures FormatTime(ms)[0] == '-'
  {
    var minutes := ms / 60000;
    assert minutes < 0;
    var m := IntToString(minutes);
    assert m == "-" + NatToString(-minutes);
    assert Pad2(minutes) == m;
  }

  /** During the last second the rendering is "00:00". */
  lemma FormatTimeLastSecond(ms: int)
    requires 0 <= ms < 1000
    ensures FormatTime(ms) == "00:00"
  {
    Pad2Zero();
    assert ms / 60000 == 0 && ms / 1000 == 0;
    assert JsRem(0, 60) == 0;
  }

  /** Fifty whole minutes, the length of a round, render as "50:00". */
  lemma FormatTimeFiftyMinutes(ms: int)
    requires ms == 50 * 60 * 1000
    ensures FormatTime(ms) == "50:00"
  {
    var minutes, seconds := ms / 60000, JsRem(ms / 1000, 60);
    assert minutes == 50 && minutes / 10 == 5 && minutes % 10 == 0;
    assert seconds == 0;
    Pad2Zero();
    assert NatToString(minutes / 10) == "5";
    assert NatToString(minutes) == NatToString(minutes / 10) + [DigitChar(minutes % 10)];
    assert Pad2(minutes) == "50";
  }

  /** "00:00" reads back as zero minutes and zero seconds. */
  lemma ReadClockZero()
    ensures var r := ReadClock("00:00");
            r.Some? && r.value.0.Num? && r.value.1.Num? && r.value.0.value * 60 + r.value.1.value == 0
  {
    FormatTimeLastSecond(0);
    FormatTimeFields(0);
  }

  /** The rendering is "00:00" exactly during the last second. */
  lemma FormatTimeZero(ms: int)
    ensures FormatTime(ms) == "00:00" <==> 0 <= ms < 1000
  {
    if 0 <= ms < 1000 {
      FormatTimeLastSecond(ms);
    } else if ms < 0 {
      FormatTimeNegative(ms);
      assert "00:00"[0] == '0';
    } else {
      FormatTimeFields(ms);
      ReadClockZero();
    }
  }

  /** Less time left never shows more time: the clock only counts down. */
  lemma FormatTimeMonotone(a: int, b: int)
    requires 0 <= a <= b
    ensures var ra, rb := ReadClock(FormatTime(a)), ReadClock(FormatTime(b));
            && ra.Some? && rb.Some? && ra.value.0.Num? && ra.value.1.Num? && rb.value.0.Num? && rb.value.1.Num?
            && ra.value.0.value * 60 + ra.value.1.value <= rb.value.0.value * 60 + rb.value.1.value
  {
    FormatTimeFields(a);
    FormatTimeFields(b);
  }

  // ---------------------------------------------------------------------------
  // The persisted Countdown rows
  // ---------------------------------------------------------------------------

  /** The database entity behind a timer. */
  datatype Countdown = Countdown(
    end: int,
    channelId: ChannelId,
    messageId: MessageId,
    finalMessage: string,
    updateIntervalMilli: int,
    tournament: Option<string>)

  /** The rows of expired countdowns at time now. */
  function Expired(rows: map<nat, Countdown>, now: int): (keys: set<nat>)
    ensures forall k :: k in keys <==> k in rows && rows[k].end <= now
  {
    set k | k in rows && rows[k].end <= now
  }

  /** The rows of countdowns still running at time now. */
  function Running(rows: map<nat, Countdown>, now: int): (live: map<nat, Countdown>)
    ensures forall k :: k in live <==> k in rows && rows[k].end > now
    ensures forall k :: k in live ==> live[k] == rows[k]
  {
    map k | k in rows && rows[k].end > now :: rows[k]
  }

  /** The rows left while pruning: those not yet visited, and the running ones. */
  ghost function Unvisited(all: map<nat, Countdown>, todo: set<nat>, now: int): map<nat, Countdown> {
    map k | k in all && (k in todo || all[k].end > now) :: all[k]
  }

  /**
   * Where the pruning loop stands: the rows not yet visited and the running
   * ones are left, and each expired row already visited was removed once.
   */
  ghost predicate Pruned(all: map<nat, Countdown>, todo: set<nat>, now: int, removals0: seq<nat>,
                         rows: map<nat, Countdown>, removals: seq<nat>)
  {
    && todo <= all.Keys
    && rows == Unvisited(all, todo, now)
    && multiset(removals) == multiset(removals0) + multiset(Expired(all, now) - todo)
  }

  /** Before the pruning loop nothing is visited. */
  lemma PrunedNone(all: map<nat, Countdown>, now: int, removals0: seq<nat>)
    ensures Pruned(all, all.Keys, now, removals0, all, removals0)
  {
    assert all == Unvisited(all, all.Keys, now);
    assert Expired(all, now) - all.Keys == {};
  }

  /** After the pruning loop the running rows are left and every expired row was removed once. */
  lemma PrunedAll(all: map<nat, Countdown>, now: int, removals0: seq<nat>, rows: map<nat, Countdown>, removals: seq<nat>)
    requires Pruned(all, {}, now, removals0, rows, removals)
    ensures rows == Running(all, now)
    ensures multiset(removals) == multiset(removals0) + multiset(Expired(all, now))
  {
    assert Unvisited(all, {}, now) == Running(all, now);
    assert Expired(all, now) - {} == Expired(all, now);
  }

  /** Visiting one more row of the pruning loop: an expired one is removed, a running one kept. */
  lemma VisitStep(all: map<nat, Countdown>, todo: set<nat>, k: nat, now: int, removals0: seq<nat>,
                  rows: map<nat, Countdown>, removals: seq<nat>, rows2: map<nat, Countdown>, removals2: seq<nat>)
    requires k in todo && Pruned(all, todo, now, removals0, rows, removals)
    requires all[k].end <= now ==> rows2 == rows - {k} && removals2 == removals + [k]
    requires all[k].end > now ==> rows2 == rows && removals2 == removals
    ensures Pruned(all, todo - {k}, now, removals0, rows2, removals2)
  {
    var e := Expired(all, now);
    if all[k].end <= now {
      assert Unvisited(all, todo - {k}, now) == Unvisited(all, todo, now) - {k};
      assert e - (todo - {k}) == (e - todo) + {k};
      assert k !in e - todo;
      assert multiset(e - (todo - {k})) == multiset(e - todo) + multiset{k};
      assert multiset(removals2) == multiset(removals) + multiset{k};
    } else {
      assert Unvisited(all, todo - {k}, now) == Unvisited(all, todo, now);
      assert e - (todo - {k}) == e - todo;
    }
  }

  /** The Countdown table: rows keyed by a generated primary key. */
  class CountdownTable {
    var rows: map<nat, Countdown>
    var nextKey: nat
    /** Every remove() issued, in order, including repeated ones. */
    var removals: seq<nat>

    constructor (rows: map<nat, Countdown>, nextKey: nat)
      ensures this.rows == rows && this.nextKey == nextKey && removals == []
    {
      this.rows := rows;
      this.nextKey := nextKey;
      removals := [];
    }

    /** entity.save() of a new row. */
    method Save(c: Countdown) returns (key: nat)
      modifies this`rows, this`nextKey
      ensures key == old(nextKey) && nextKey == key + 1
      ensures rows == old(rows)[key := c]
    {
      key := nextKey;
      nextKey := nextKey + 1;
      rows := rows[key := c];
    }

    /**
     * The pruning transaction of loadAll: every row whose end is at or before
     * now is removed, one remove() each; the others stay.
     */
    method RemoveExpired(now: int)
      modifies this`rows, this`removals
      ensures rows == Running(old(rows), now)
      ensures multiset(removals) == multiset(old(removals)) + multiset(Expired(old(rows), now))
    {
      var all := rows;
      var todo := all.Keys;
      ghost var removals0 := removals;
      PrunedNone(all, now, removals0);
      while todo != {}
        invariant Pruned(all, todo, now, removals0, rows, removals)
        decreases todo
      {
        var k :| k in todo;
        ghost var rows1, removals1 := rows, removals;
        if all[k].end <= now {
          Remove(k);
        }
        VisitStep(all, todo, k, now, removals0, rows1, removals1, rows, removals);
        todo := todo - {k};
      }
      PrunedAll(all, now, removals0, rows, removals);
    }

    /** entity.remove(). */
    method Remove(key: nat)
      modifies this`rows, this`removals
      ensures rows == old(rows) - {key}
      ensures removals == old(removals) + [key]
    {
      rows := rows - {key};
      removals := removals + [key];
    }
  }

  // ---------------------------------------------------------------------------
  // PersistentTimer
  // ---------------------------------------------------------------------------

  class PersistentTimer {
    const discord: Discord
    const table: CountdownTable
    const log: Logger
    /** The primary key of the entity's row. */
    const key: nat
    const entity: Countdown
    /** Whether the interval handle is set: the constructor sets it and nothing ever clears it. */
    const interval: bool
    /** Whether setInterval still calls Tick (cleared by clearInterval). */
    var scheduled: bool

    /** The constructor starts the interval at once. */
    constructor (discord: Discord, table: CountdownTable, log: Logger, key: nat, entity: Countdown)
      ensures this.discord == discord && this.table == table && this.log == log
      ensures this.key == key && this.entity == entity
      ensures interval && scheduled
    {
      this.discord := discord;
      this.table := table;
      this.log := log;
      this.key := key;
      this.entity := entity;
      interval := true;
      scheduled := true;
    }

    /** isActive(): whether the interval handle is defined. */
    predicate IsActive() {
      interval
    }

    /**
     * create: first posts the countdown message, then saves an entity that
     * records the sent message's id, and starts the timer.
     */
    static method Create(discord: Discord, table: CountdownTable, log: Logger, now: int, end: int,
                         channelId: ChannelId, finalMessage: string, updateIntervalMilli: int,
                         tournament: Option<string>)
      returns (t: PersistentTimer)
      modifies discord`effects, discord`nextId, discord`messages, table`rows, table`nextKey
      ensures discord.effects == old(discord.effects) + [Sent(channelId, CountdownText(FormatTime(end - now)), old(discord.nextId))]
      ensures discord.messages == old(discord.messages)[old(discord.nextId) := channelId]
      ensures discord.nextId == old(discord.nextId) + 1
      ensures t.entity == Countdown(end, channelId, old(discord.nextId), finalMessage, updateIntervalMilli, tournament)
      ensures t.key == old(table.nextKey) && table.rows == old(table.rows)[t.key := t.entity]
      ensures fresh(t) && t.discord == discord && t.table == table && t.log == log
      ensures t.IsActive() && t.scheduled
    {
      var left := FormatTime(end - now);
      var id := discord.SendMessage(channelId, CountdownText(left));
      var entity := Countdown(end, channelId, id, finalMessage, updateIntervalMilli, tournament);
      var key := table.Save(entity);
      t := new PersistentTimer(discord, table, log, key, entity);
    }

    /**
     * loadAll: a running timer for every row whose end is after now, then every
     * other row removed; no final message is sent for the removed ones.
     */
    static method LoadAll(discord: Discord, table: CountdownTable, log: Logger, now: int)
      returns (timers: seq<PersistentTimer>)
      modifies table`rows, table`removals
      ensures forall i :: 0 <= i < |timers| ==>
                && fresh(timers[i]) && timers[i].IsActive() && timers[i].scheduled
                && timers[i].discord == discord && timers[i].table == table && timers[i].log == log
                && timers[i].key in old(table.rows) && timers[i].entity == old(table.rows)[timers[i].key]
                && timers[i].entity.end > now
      ensures forall k :: k in Running(old(table.rows), now) ==> exists i :: 0 <= i < |timers| && timers[i].key == k
      ensures forall i, j :: 0 <= i < j < |timers| ==> timers[i].key != timers[j].key
      ensures table.rows == Running(old(table.rows), now)
      ensures multiset(table.removals) == multiset(old(table.removals)) + multiset(Expired(old(table.rows), now))
    {
      var rows := table.rows;
      timers := [];
      var todo := rows.Keys;
      while todo != {}
        invariant todo <= rows.Keys
        invariant table.rows == rows && table.removals == old(table.removals)
        invariant forall i :: 0 <= i < |timers| ==>
                    && fresh(timers[i]) && timers[i].interval && timers[i].scheduled
                    && timers[i].discord == discord && timers[i].table == table && timers[i].log == log
                    && timers[i].key in rows && timers[i].key !in todo
                    && timers[i].entity == rows[timers[i].key] && timers[i].entity.end > now
        invariant forall k :: k in rows && k !in todo && rows[k].end > now ==>
                    exists i :: 0 <= i < |timers| && timers[i].key == k
        invariant forall i, j :: 0 <= i < j < |timers| ==> timers[i].key != timers[j].key
        decreases todo
      {
        var k :| k in todo;
        todo := todo - {k};
        if rows[k].end > now {
          var t := new PersistentTimer(discord, table, log, k, rows[k]);
          var before := timers;
          timers := timers + [t];
          assert forall i :: 0 <= i < |before| ==> timers[i] == before[i];
          assert timers[|before|].key == k;
        }
      }

      table.RemoveExpired(now);
    }

    /**
     * abort: when the interval is set, stops the runtime calling Tick and
     * removes the entity. The handle is compared with undefined but never
     * cleared, so the timer stays active and a second abort removes again.
     */
    method Abort()
      modifies this`scheduled, table`rows, table`removals
      ensures IsActive() ==> !scheduled && table.rows == old(table.rows) - {key} && table.removals == old(table.removals) + [key]
      ensures !IsActive() ==> scheduled == old(scheduled) && table.rows == old(table.rows) && table.removals == old(table.removals)
    {
      if interval {
        scheduled := false;
        table.Remove(key);
      }
    }

    /**
     * tick: at or after the end, posts the final message and aborts, and then,
     * like every tick, edits the countdown message if it still exists or logs
     * a warning if it was removed.
     */
    method Tick(now: int)
      requires scheduled
      modifies this`scheduled, table`rows, table`removals, discord`effects, discord`nextId, discord`messages, log`entries
      ensures var fin := if entity.end <= now then [Sent(entity.channelId, entity.finalMessage, old(discord.nextId))] else [];
              var edit := if discord.Exists(entity.channelId, entity.messageId)
                          then [Edited(entity.channelId, entity.messageId, CountdownText(FormatTime(entity.end - now)))]
                          else [];
              discord.effects == old(discord.effects) + fin + edit
      ensures discord.Exists(entity.channelId, entity.messageId) ==> log.entries == old(log.entries)
      ensures !discord.Exists(entity.channelId, entity.messageId) ==>
                log.entries == old(log.entries) + [(Warn, entity.channelId + " " + NatToString(entity.messageId) + " was removed")]
      ensures entity.end <= now && IsActive() ==>
                !scheduled && table.rows == old(table.rows) - {key} && table.removals == old(table.removals) + [key]
      ensures entity.end > now ==> scheduled && table.rows == old(table.rows) && table.removals == old(table.removals)
    {
      if entity.end <= now {
        var _ := discord.SendMessage(entity.channelId, entity.finalMessage);
        Abort();
      }
      var left := FormatTime(entity.end - now);
      if discord.Exists(entity.channelId, entity.messageId) {
        discord.EditMessage(entity.channelId, entity.messageId, CountdownText(left));
      } else {
        log.Log(Warn, entity.channelId + " " + NatToString(entity.messageId) + " was removed");
      }
    }
  }
}
