/**
 * The AIGC service's choice of a working unit by name (the least recently
 * run idle unit, else the least recently run valid one, with a preference
 * for heavy units for short contact ids), the admission of a new channel,
 * the reserved participant names, the word-overlap similarity of two
 * sentences and the channel expiry of the tick. The units are given in
 * the iteration order of the service's unit map; the clock and the new
 * channel's code are parameters.
 */
module AigcServiceModel {
  import opened PsychologyTypes
  import opened Strings

  /** A unit as the selection sees it. */
  datatype Unit = Unit(name: string, valid: bool, running: bool, lastRunning: int, weight: real)

  // ---- Filtering and the oldest unit ------------------------------------------

  /** The units satisfying p, in their order. */
  function Select(units: seq<Unit>, p: Unit -> bool): (r: seq<Unit>)
    ensures forall u :: u in r <==> u in units && p(u)
  {
    if units == [] then []
    else
      var init := Select(units[..|units| - 1], p);
      var u := units[|units| - 1];
      assert forall v :: v in units <==> v in units[..|units| - 1] || v == u by {
        assert units == units[..|units| - 1] + [u];
      }
      if p(u) then init + [u] else init
  }

  /** The iteration that collects candidates. */
  method Collect(units: seq<Unit>, p: Unit -> bool) returns (candidates: seq<Unit>)
    ensures candidates == Select(units, p)
  {
    candidates := [];
    for i := 0 to |units|
      invariant candidates == Select(units[..i], p)
    {
      assert units[..i + 1][..i] == units[..i];
      if p(units[i]) {
        candidates := candidates + [units[i]];
      }
    }
    assert units[..|units|] == units;
  }

  /**
   * What a stable sort by last running time puts first: the first unit
   * whose time is least.
   */
  function Oldest(cs: seq<Unit>): (r: Unit)
    requires cs != []
    ensures r in cs
    ensures forall u :: u in cs ==> r.lastRunning <= u.lastRunning
    ensures exists i :: 0 <= i < |cs| && cs[i] == r && forall k :: 0 <= k < i ==> cs[k].lastRunning > r.lastRunning
  {
    if |cs| == 1 then cs[0]
    else
      var init := cs[..|cs| - 1];
      var o := Oldest(init);
      var u := cs[|cs| - 1];
      OldestSnoc(cs, o);
      if u.lastRunning < o.lastRunning then u else o
  }

  /** The step of Oldest: the last unit wins only when it ran strictly earlier than the oldest before it. */
  lemma OldestSnoc(cs: seq<Unit>, o: Unit)
    requires |cs| > 1
    requires var init := cs[..|cs| - 1];
      o in init && (forall v :: v in init ==> o.lastRunning <= v.lastRunning) &&
      exists i :: 0 <= i < |init| && init[i] == o && forall k :: 0 <= k < i ==> init[k].lastRunning > o.lastRunning
    ensures var u := cs[|cs| - 1]; var r := if u.lastRunning < o.lastRunning then u else o;
      r in cs && (forall v :: v in cs ==> r.lastRunning <= v.lastRunning) &&
      exists i :: 0 <= i < |cs| && cs[i] == r && forall k :: 0 <= k < i ==> cs[k].lastRunning > r.lastRunning
  {
    var init := cs[..|cs| - 1];
    var u := cs[|cs| - 1];
    assert forall v :: v in cs <==> v in init || v == u by {
      assert cs == init + [u];
    }
    var i :| 0 <= i < |init| && init[i] == o && forall k :: 0 <= k < i ==> init[k].lastRunning > o.lastRunning;
    assert cs[i] == o;
    if u.lastRunning < o.lastRunning {
      forall k | 0 <= k < |cs| - 1
        ensures cs[k].lastRunning > u.lastRunning
      {
        assert cs[k] in init;
      }
      assert cs[|cs| - 1] == u;
    } else {
      assert forall k :: 0 <= k < i ==> cs[k].lastRunning > o.lastRunning;
    }
  }

  function IsIdle(name: string): Unit -> bool
  {
    (u: Unit) => u.name == name && u.valid && !u.running
  }

  function IsUsable(name: string): Unit -> bool
  {
    (u: Unit) => u.name == name && u.valid
  }

  function IsHeavy(name: string): Unit -> bool
  {
    (u: Unit) => u.name == name && u.valid && u.weight > 5.0
  }

  function NotRunning(): Unit -> bool
  {
    (u: Unit) => !u.running
  }

  /** The choice the selection makes among the candidates: the oldest idle one, else the oldest. */
  function Choice(cs: seq<Unit>): (r: Option<Unit>)
    ensures r.None? <==> cs == []
    ensures r.Some? ==> r.value in cs
  {
    if cs == [] then None
    else
      var idle := Select(cs, NotRunning());
      if idle == [] then Some(Oldest(cs)) else Some(Oldest(idle))
  }

  // ---- The selections ---------------------------------------------------------------

  /**
   * The source's selectIdleUnitByName: None exactly when no unit of that
   * name is valid and idle; otherwise such a unit whose last run is no
   * later than any other's.
   */
  method SelectIdleUnitByName(units: seq<Unit>, name: string) returns (r: Option<Unit>)
    ensures r.None? <==> forall u :: u in units ==> !IsIdle(name)(u)
    ensures r.Some? ==>
      r.value in units && IsIdle(name)(r.value) &&
      forall u :: u in units && IsIdle(name)(u) ==> r.value.lastRunning <= u.lastRunning
    ensures r.Some? ==> r.value == Oldest(Select(units, IsIdle(name)))
  {
    var candidates := Collect(units, IsIdle(name));
    if candidates == [] {
      return None;
    }
    return Some(Oldest(candidates));
  }

  /** The general choice as a specification: the oldest idle unit, else the oldest valid one, else none. */
  function UnitByName(units: seq<Unit>, name: string): Option<Unit>
  {
    Choice(Select(units, IsUsable(name)))
  }

  /** The idle units of a name are its usable units that are not running. */
  lemma SelectIdle(units: seq<Unit>, name: string)
    ensures Select(Select(units, IsUsable(name)), NotRunning()) == Select(units, IsIdle(name))
  {
    if units != [] {
      var init := units[..|units| - 1];
      SelectIdle(init, name);
      var u := units[|units| - 1];
      var usable := Select(init, IsUsable(name));
      if IsUsable(name)(u) {
        assert (usable + [u])[..|usable|] == usable;
      }
    }
  }

  /**
   * The source's selectUnitByName: an idle unit when there is one;
   * otherwise, all valid units of the name being busy, the one run least
   * recently; None when the name has no valid unit.
   */
  method SelectUnitByName(units: seq<Unit>, name: string) returns (r: Option<Unit>)
    ensures r == UnitByName(units, name)
  {
    SelectIdle(units, name);
    var idleUnit := SelectIdleUnitByName(units, name);
    if idleUnit.Some? {
      return idleUnit;
    }
    var candidates := Collect(units, IsUsable(name));
    if candidates == [] {
      return None;
    }
    if |candidates| == 1 {
      assert Select(candidates, NotRunning()) == [] ==> Oldest(candidates) == candidates[0];
      assert Select(candidates, NotRunning()) != [] ==> Select(candidates, NotRunning()) == candidates;
      return Some(candidates[0]);
    }
    var unit := Oldest(candidates);
    var remaining := Collect(candidates, NotRunning());
    if remaining == [] {
      return Some(unit);
    }
    return Some(Oldest(remaining));
  }

  /**
   * What the general selection promises: None exactly when no valid unit
   * has the name; an idle unit whenever one exists, run no later than any
   * idle one; otherwise a valid unit run no later than any valid one.
   */
  lemma UnitByNameMeaning(units: seq<Unit>, name: string)
    ensures var r := UnitByName(units, name);
      && (r.None? <==> forall u :: u in units ==> !IsUsable(name)(u))
      && (r.Some? ==> r.value in units && IsUsable(name)(r.value))
      && ((exists u :: u in units && IsIdle(name)(u)) ==>
            r.Some? && IsIdle(name)(r.value) &&
            forall u :: u in units && IsIdle(name)(u) ==> r.value.lastRunning <= u.lastRunning)
      && ((forall u :: u in units ==> !IsIdle(name)(u)) && r.Some? ==>
            forall u :: u in units && IsUsable(name)(u) ==> r.value.lastRunning <= u.lastRunning)
  {
    SelectIdle(units, name);
    var usable := Select(units, IsUsable(name));
    if usable != [] {
      var idle := Select(usable, NotRunning());
      if idle != [] {
        assert Oldest(idle) in idle;
      }
    } else {
      assert forall u :: u in units ==> !IsUsable(name)(u);
    }
  }

  /** Contact ids above ten digits get the general selection. */
  const LongIdBound: int := 9999999999

  /**
   * The choice for a contact id: a long id, or a name without heavy
   * units (weight above 5.0), gets the general choice; otherwise the same
   * choice among the heavy units.
   */
  function UnitForContact(units: seq<Unit>, name: string, cid: int): Option<Unit>
  {
    var heavy := Select(units, IsHeavy(name));
    if cid > LongIdBound || heavy == [] then UnitByName(units, name) else Choice(heavy)
  }

  /** The source's selectUnitByName(unitName, cid). */
  method SelectUnitForContact(units: seq<Unit>, name: string, cid: int) returns (r: Option<Unit>)
    ensures r == UnitForContact(units, name, cid)
  {
    if cid > LongIdBound {
      r := SelectUnitByName(units, name);
      return;
    }
    var candidates := Collect(units, IsHeavy(name));
    if candidates == [] {
      r := SelectUnitByName(units, name);
      return;
    }
    if |candidates| == 1 {
      assert Select(candidates, NotRunning()) == [] ==> Oldest(candidates) == candidates[0];
      assert Select(candidates, NotRunning()) != [] ==> Select(candidates, NotRunning()) == candidates;
      return Some(candidates[0]);
    }
    var unit := Oldest(candidates);
    var remaining := Collect(candidates, NotRunning());
    if remaining == [] {
      return Some(unit);
    }
    return Some(Oldest(remaining));
  }

  /** A short id with some heavy unit always gets a heavy unit. */
  lemma ShortIdGetsHeavyUnit(units: seq<Unit>, name: string, cid: int)
    requires cid <= LongIdBound
    requires exists u :: u in units && IsHeavy(name)(u)
    ensures var r := UnitForContact(units, name, cid);
      r.Some? && r.value in units && IsHeavy(name)(r.value)
  {
    var heavy := Select(units, IsHeavy(name));
    var u :| u in units && IsHeavy(name)(u);
    assert u in heavy;
  }

  // ---- Participants and channels -----------------------------------------------------

  /** The source's checkParticipantName: the reserved names are refused, ignoring case. */
  predicate ParticipantAllowed(name: string)
  {
    !(EqualsIgnoreCase(name, "AIGC") || EqualsIgnoreCase(name, "Cube") ||
      EqualsIgnoreCase(name, "Baize") || EqualsIgnoreCase(name, "白泽"))
  }

  lemma LowerCharIdempotent(c: char)
    ensures LowerChar(LowerChar(c)) == LowerChar(c)
  {
  }

  /** The check ignores case: a name and its lower-case form are refused alike. */
  lemma ParticipantIgnoresCase(name: string)
    ensures ParticipantAllowed(Lower(name)) == ParticipantAllowed(name)
  {
    forall s: string | |s| == |name|
      ensures EqualsIgnoreCase(Lower(name), s) == EqualsIgnoreCase(name, s)
    {
      forall i | 0 <= i < |name|
        ensures LowerChar(Lower(name)[i]) == LowerChar(name[i])
      {
        LowerCharIdempotent(name[i]);
      }
    }
  }

  /** The refused names, in any case. */
  lemma ReservedNames()
    ensures !ParticipantAllowed("aigc") && !ParticipantAllowed("CUBE") && !ParticipantAllowed("baize")
    ensures !ParticipantAllowed("白泽")
    ensures ParticipantAllowed("Cubes") && ParticipantAllowed("")
  {
    assert EqualsIgnoreCase("aigc", "AIGC");
    assert EqualsIgnoreCase("CUBE", "Cube");
    assert EqualsIgnoreCase("baize", "Baize");
    assert EqualsIgnoreCase("白泽", "白泽");
    assert LowerChar("Cubes"[0]) != LowerChar("Baize"[0]);
  }

  /** A channel as admission and expiry see it. */
  datatype Channel = Channel(token: string, participant: string, processing: bool,
                             processingTimestamp: int, activeTimestamp: int)

  /** At most ten thousand channels. */
  const MaxChannel: int := 10000

  /** A processing flag older than five minutes is reset by the tick. */
  const ProcessingTimeout: int := 5 * 60 * 1000

  /** A channel inactive for thirty minutes is dropped by the tick. */
  const ChannelTimeout: int := 30 * 60 * 1000

  /** Whether a channel for the token is still processing. */
  predicate Busy(m: map<string, Channel>, token: string)
  {
    exists k :: k in m && m[k].token == token && m[k].processing
  }

  lemma SomeKey(keys: set<string>)
    requires keys != {}
    ensures exists k :: k in keys
  {
    if forall k :: k !in keys {
      assert false;
    }
  }

  /** The scan of requestChannel for a processing channel of the token. */
  method FindBusy(m: map<string, Channel>, token: string) returns (busy: bool)
    ensures busy <==> Busy(m, token)
  {
    var keys := m.Keys;
    while keys != {}
      invariant keys <= m.Keys
      invariant forall k :: k in m && k !in keys ==> !(m[k].token == token && m[k].processing)
      decreases keys
    {
      SomeKey(keys);
      var k :| k in keys;
      if m[k].token == token && m[k].processing {
        return true;
      }
      keys := keys - {k};
    }
    return false;
  }

  /** The channel after the tick's reset of a stale processing flag. */
  function Refreshed(c: Channel, now: int): Channel
  {
    if now - c.processingTimestamp >= ProcessingTimeout then c.(processing := false) else c
  }

  /** The channels the tick keeps, each with its stale flag reset. */
  function TickChannels(m: map<string, Channel>, now: int): (r: map<string, Channel>)
    ensures forall k :: k in r <==> k in m && now - m[k].activeTimestamp < ChannelTimeout
    ensures forall k :: k in r ==> r[k] == Refreshed(m[k], now)
  {
    map k | k in m && now - m[k].activeTimestamp < ChannelTimeout :: Refreshed(m[k], now)
  }

  /** getAllChannels: the map's values, in their iteration order, twice. */
  function AllChannels(values: seq<Channel>): (r: seq<Channel>)
    ensures |r| == 2 * |values|
    ensures forall i :: 0 <= i < |values| ==> r[i] == values[i] && r[i + |values|] == values[i]
    ensures forall c :: multiset(r)[c] == 2 * multiset(values)[c]
  {
    values + values
  }

  // ---- Sentence similarity ------------------------------------------------------------

  /** The share count/total, between 0 and 1 when count <= total. */
  function Ratio(count: nat, total: nat): (r: real)
    requires 0 < total && count <= total
    ensures 0.0 <= r <= 1.0
    ensures count == total ==> r == 1.0
    ensures count == 0 ==> r == 0.0
  {
    var t := total as real;
    if count == total then 1.0
    else
      var q := count as real / t;
      assert q * t == count as real;
      assert q <= 1.0 by {
        if q > 1.0 {
          assert false;
        }
      }
      q
  }

  /** How many words of pole occur in monkey, repeated words counted each time. */
  function Shared(pole: seq<string>, monkey: seq<string>): (n: nat)
    ensures n <= |pole|
  {
    if pole == [] then 0
    else Shared(pole[..|pole| - 1], monkey) + (if pole[|pole| - 1] in monkey then 1 else 0)
  }

  /**
   * The source's sentenceSimilarity on the two keyword lists: the share of
   * the longer list's words found in the other (the second list counts as
   * the longer on a tie). None stands for the NaN of two empty lists.
   */
  method SentenceSimilarity(wordsA: seq<string>, wordsB: seq<string>) returns (r: Option<real>)
    ensures var pole := if |wordsA| > |wordsB| then wordsA else wordsB;
      var monkey := if |wordsA| > |wordsB| then wordsB else wordsA;
      if pole == [] then r.None?
      else r == Some(Ratio(Shared(pole, monkey), |pole|))
    ensures r.Some? ==> 0.0 <= r.value <= 1.0
  {
    var pole, monkey := wordsB, wordsA;
    if |wordsA| > |wordsB| {
      pole, monkey := wordsA, wordsB;
    }
    var count := 0;
    for i := 0 to |pole|
      invariant count == Shared(pole[..i], monkey)
    {
      assert pole[..i + 1][..i] == pole[..i];
      if pole[i] in monkey {
        count := count + 1;
      }
    }
    assert pole[..|pole|] == pole;
    if |pole| == 0 {
      return None;
    }
    return Some(Ratio(count, |pole|));
  }

  /** Every word of a list is in the list. */
  lemma {:induction false} SharedSelf(words: seq<string>, within: seq<string>)
    requires forall i :: 0 <= i < |words| ==> words[i] in within
    ensures Shared(words, within) == |words|
  {
    if words != [] {
      SharedSelf(words[..|words| - 1], within);
    }
  }

  /** The similarity of a non-empty keyword list with itself is 1. */
  lemma SimilaritySelf(words: seq<string>)
    requires words != []
    ensures Ratio(Shared(words, words), |words|) == 1.0
  {
    SharedSelf(words, words);
  }

  /** Two lists without a common word have similarity 0. */
  lemma {:induction false} SharedDisjoint(pole: seq<string>, monkey: seq<string>)
    requires forall i :: 0 <= i < |pole| ==> pole[i] !in monkey
    ensures Shared(pole, monkey) == 0
  {
    if pole != [] {
      SharedDisjoint(pole[..|pole| - 1], monkey);
    }
  }

  // ---- The service ---------------------------------------------------------------------

  class AigcService {
    var channels: map<string, Channel>

    constructor ()
      ensures channels == map[]
    {
      channels := map[];
    }

    /**
     * The source's requestChannel: None with ten thousand channels, a
     * reserved participant name, or a channel of the same token still
     * processing; otherwise a new channel under code.
     */
    method RequestChannel(token: string, participant: string, code: string, now: int) returns (r: Option<Channel>)
      modifies this
      ensures var refused := |old(channels)| >= MaxChannel || !ParticipantAllowed(participant) ||
          Busy(old(channels), token);
        if refused then r.None? && channels == old(channels)
        else
          r == Some(Channel(token, participant, false, 0, now)) &&
          channels == old(channels)[code := r.value]
    {
      if |channels| >= MaxChannel {
        return None;
      }
      if !ParticipantAllowed(participant) {
        return None;
      }
      var busy := FindBusy(channels, token);
      if busy {
        return None;
      }
      var channel := Channel(token, participant, false, 0, now);
      channels := channels[code := channel];
      return Some(channel);
    }

    /** The channel part of the source's onTick. */
    method OnTick(now: int)
      modifies this
      ensures channels == TickChannels(old(channels), now)
    {
      var m := channels;
      var keys := m.Keys;
      var r := m;
      while keys != {}
        invariant keys <= m.Keys
        invariant forall k :: k in r <==> k in m && (k in keys || now - m[k].activeTimestamp < ChannelTimeout)
        invariant forall k :: k in r ==> r[k] == if k in keys then m[k] else Refreshed(m[k], now)
        decreases keys
      {
        SomeKey(keys);
        var k :| k in keys;
        var c := Refreshed(m[k], now);
        if now - c.activeTimestamp >= ChannelTimeout {
          r := r - {k};
        } else {
          r := r[k := c];
        }
        keys := keys - {k};
      }
      ghost var t := TickChannels(m, now);
      assert forall k :: k in r <==> k in t;
      assert forall k :: k in r ==> r[k] == t[k];
      channels := r;
    }
  }
}
