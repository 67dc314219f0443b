/**
 * The ferry service's role check of a domain's members: unless exactly
 * one member is an administrator, the earliest member to join (before
 * now) becomes the administrator and every other administrator becomes a
 * member. The members are updated in place; a member whose role changes
 * is written to storage, kept here as a log.
 */
module FerryServiceModel {
  import opened PsychologyTypes

  datatype Role = Administrator | Member | OtherRole(code: int)

  datatype DomainMember = DomainMember(contactId: int, role: Role, joinTime: int)

  /** The number of administrators. */
  function AdminCount(ms: seq<DomainMember>): (n: nat)
    ensures n <= |ms|
  {
    if ms == [] then 0
    else AdminCount(ms[..|ms| - 1]) + (if ms[|ms| - 1].role == Administrator then 1 else 0)
  }

  /** No administrator at all. */
  lemma {:induction false} AdminCountZero(ms: seq<DomainMember>)
    requires forall i :: 0 <= i < |ms| ==> ms[i].role != Administrator
    ensures AdminCount(ms) == 0
  {
    if ms != [] {
      AdminCountZero(ms[..|ms| - 1]);
    }
  }

  /** Exactly one administrator, at index a. */
  lemma {:induction false} AdminCountOne(ms: seq<DomainMember>, a: nat)
    requires a < |ms| && ms[a].role == Administrator
    requires forall i :: 0 <= i < |ms| && i != a ==> ms[i].role != Administrator
    ensures AdminCount(ms) == 1
  {
    var init := ms[..|ms| - 1];
    if a == |ms| - 1 {
      AdminCountZero(init);
    } else {
      AdminCountOne(init, a);
    }
  }

  /**
   * The member the first loop settles on: the index of a member that
   * joined before now, earlier than every member before it.
   */
  function Earliest(ms: seq<DomainMember>, now: int): (r: Option<nat>)
    ensures r.Some? ==> r.value < |ms|
  {
    if ms == [] then None
    else
      var e := Earliest(ms[..|ms| - 1], now);
      var t := if e.None? then now else ms[e.value].joinTime;
      if ms[|ms| - 1].joinTime < t then Some(|ms| - 1) else e
  }

  /**
   * None exactly when nobody joined before now; otherwise the first of the
   * members with the least join time, which is before now.
   */
  lemma {:induction false} EarliestMeaning(ms: seq<DomainMember>, now: int)
    ensures var r := Earliest(ms, now);
      && (r.None? <==> forall i :: 0 <= i < |ms| ==> ms[i].joinTime >= now)
      && (r.Some? ==>
            ms[r.value].joinTime < now &&
            (forall i :: 0 <= i < |ms| ==> ms[r.value].joinTime <= ms[i].joinTime) &&
            (forall i :: 0 <= i < r.value ==> ms[r.value].joinTime < ms[i].joinTime))
  {
    if ms != [] {
      var init := ms[..|ms| - 1];
      EarliestMeaning(init, now);
      assert forall i :: 0 <= i < |init| ==> init[i] == ms[i];
    }
  }

  /** The members once the earliest one, at f, has been made the only administrator. */
  function Promoted(ms: seq<DomainMember>, f: nat): (r: seq<DomainMember>)
    requires f < |ms|
    ensures |r| == |ms|
  {
    seq(|ms|, i requires 0 <= i < |ms| =>
      if i == f then ms[i].(role := Administrator)
      else if ms[i].contactId == ms[f].contactId then ms[i]
      else if ms[i].role == Administrator then ms[i].(role := Member)
      else ms[i])
  }

  /** The storage writes of the second loop over the members. */
  function RoleWrites(ms: seq<DomainMember>, first: DomainMember): seq<DomainMember>
  {
    if ms == [] then []
    else
      var m := ms[|ms| - 1];
      RoleWrites(ms[..|ms| - 1], first) +
        (if m.contactId == first.contactId then [first.(role := Administrator)]
         else if m.role == Administrator then [m.(role := Member)]
         else [])
  }

  predicate UniqueContacts(ms: seq<DomainMember>)
  {
    forall i, j :: 0 <= i < j < |ms| ==> ms[i].contactId != ms[j].contactId
  }

  /**
   * With distinct contacts, the earliest member ends up the only
   * administrator, every other member keeps its contact and join time,
   * former administrators become members and nobody else changes.
   */
  lemma PromotedMeaning(ms: seq<DomainMember>, f: nat)
    requires f < |ms| && UniqueContacts(ms)
    ensures var r := Promoted(ms, f);
      && AdminCount(r) == 1 && r[f].role == Administrator
      && (forall i :: 0 <= i < |ms| ==> r[i].(role := ms[i].role) == ms[i])
      && (forall i :: 0 <= i < |ms| && i != f ==> r[i].role == if ms[i].role == Administrator then Member else ms[i].role)
  {
    AdminCountOne(Promoted(ms, f), f);
  }

  /** The writes are the promoted member and the demoted administrators, in list order. */
  lemma {:induction false} RoleWritesMeaning(ms: seq<DomainMember>, f: nat, k: nat)
    requires f < |ms| && UniqueContacts(ms) && k <= |ms|
    ensures forall w :: w in RoleWrites(ms[..k], ms[f]) ==>
      w == ms[f].(role := Administrator) || exists i :: 0 <= i < k && i != f && ms[i].role == Administrator && w == ms[i].(role := Member)
    ensures |RoleWrites(ms[..k], ms[f])| == (if f < k then 1 else 0) + AdminCount(ms[..k]) - (if f < k && ms[f].role == Administrator then 1 else 0)
  {
    if k > 0 {
      RoleWritesMeaning(ms, f, k - 1);
      assert ms[..k][..k - 1] == ms[..k - 1];
    }
  }

  /** The first loop of checkRole: the administrator count and the earliest member. */
  method Survey(members: array<DomainMember>, now: int) returns (adminCount: nat, first: Option<nat>)
    ensures adminCount == AdminCount(members[..])
    ensures first == Earliest(members[..], now)
  {
    adminCount := 0;
    first := None;
    var timestamp := now;
    for i := 0 to members.Length
      invariant adminCount == AdminCount(members[..i])
      invariant first == Earliest(members[..i], now)
      invariant timestamp == if first.None? then now else members[first.value].joinTime
    {
      assert members[..i + 1][..i] == members[..i];
      if members[i].role == Administrator {
        adminCount := adminCount + 1;
      }
      if members[i].joinTime < timestamp {
        first := Some(i);
        timestamp := members[i].joinTime;
      }
    }
    assert members[..members.Length] == members[..];
  }

  /** The second loop of checkRole: promote the member at f and demote the other administrators. */
  method Reassign(members: array<DomainMember>, f: nat) returns (writes: seq<DomainMember>)
    requires f < members.Length
    modifies members
    ensures members[..] == Promoted(old(members[..]), f)
    ensures writes == RoleWrites(old(members[..]), old(members[f]))
  {
    ghost var ms := members[..];
    var chosen := members[f];
    writes := [];
    for i := 0 to members.Length
      invariant writes == RoleWrites(ms[..i], chosen)
      invariant chosen == ms[f]
      invariant forall j :: 0 <= j < members.Length && j != f ==> members[j] == if j < i then Promoted(ms, f)[j] else ms[j]
      invariant members[f] == chosen.(role := Administrator) || members[f] == chosen
      invariant i > f ==> members[f] == chosen.(role := Administrator)
    {
      assert ms[..i + 1][..i] == ms[..i];
      if members[i].contactId == chosen.contactId {
        members[f] := chosen.(role := Administrator);
        writes := writes + [chosen.(role := Administrator)];
      } else if members[i].role == Administrator {
        members[i] := members[i].(role := Member);
        writes := writes + [members[i]];
      }
    }
    assert ms[..members.Length] == ms;
    assert members[..] == Promoted(ms, f);
  }

  /**
   * The source's checkRole, on the members in place. failed is the null
   * dereference of a list where nobody joined before now and the
   * administrator count is not one.
   */
  method CheckRole(members: array<DomainMember>, now: int) returns (failed: bool, writes: seq<DomainMember>)
    modifies members
    ensures var ms := old(members[..]);
      var f := Earliest(ms, now);
      if AdminCount(ms) == 1 || ms == [] then !failed && members[..] == ms && writes == []
      else if f.None? then failed && members[..] == ms && writes == []
      else !failed && members[..] == Promoted(ms, f.value) && writes == RoleWrites(ms, ms[f.value])
  {
    var adminCount, first := Survey(members, now);
    if adminCount == 1 || members.Length == 0 {
      return false, [];
    }
    if first.None? {
      return true, [];
    }
    writes := Reassign(members, first.value);
    return false, writes;
  }
}
