/**
 * The rules a plot's state follows in Plot.java, stated on the collections and
 * values themselves: access-level codes, the "*" wildcard, the denial predicate,
 * what each add/remove does to the member map and the denied set, the expiry
 * extension policy, Java int arithmetic on the like counter and the metadata put.
 * The class Plot (module Plots) updates its fields by exactly these functions.
 */
module PlotRules {
  import opened Wrappers

  /** Plot.AccessLevel: the two membership tiers. */
  datatype AccessLevel = Allowed | Trusted

  /** AccessLevel.getLevel: the integer code a level is stored under. */
  function Level(a: AccessLevel): (code: int)
    ensures code == 0 || code == 1
    ensures code == 0 <==> a == Allowed
  {
    match a
    case Allowed => 0
    case Trusted => 1
  }

  /** AccessLevel.getAccessLevel: decodes a stored code; every unknown code reads as ALLOWED. */
  function FromLevel(code: int): (a: AccessLevel)
    ensures code != 0 && code != 1 ==> a == Allowed
    ensures code == 0 || code == 1 ==> Level(a) == code
  {
    match code
    case 0 => Allowed
    case 1 => Trusted
    case _ => Allowed
  }

  /** Decoding a stored level gives the level back. */
  lemma LevelRoundTrip(a: AccessLevel)
    ensures FromLevel(Level(a)) == a
  {
  }

  /** The key that stands for every player, in the member map and in the denied set. */
  const Wildcard: string := "*"

  /** Plot.isDeniedInternal: "*" in the set denies everyone, otherwise exactly the listed names are denied. */
  predicate DeniedBy(denied: set<string>, name: string)
  {
    Wildcard in denied || name in denied
  }

  /** Plot.addDenied(String): the name is added unless the denial predicate already holds for it. */
  function WithDenied(denied: set<string>, name: string): (r: set<string>)
    ensures DeniedBy(r, name)
    ensures denied <= r && r - denied <= {name}
    ensures r == denied <==> DeniedBy(denied, name)
  {
    if DeniedBy(denied, name) then denied else denied + {name}
  }

  /** Plot.removeDenied: only that entry goes; nothing changes when it is absent. */
  function WithoutDenied(denied: set<string>, name: string): (r: set<string>)
    ensures name !in r
    ensures forall x :: x != name ==> (x in r <==> x in denied)
    ensures name !in denied ==> r == denied
  {
    denied - {name}
  }

  /** The set of names a sequence lists. */
  function Elements(names: seq<string>): set<string>
  {
    set n | n in names
  }

  /** Calling Plot.addDenied(String) once for every name, in order. */
  function DenyEach(denied: set<string>, names: seq<string>): set<string>
    decreases |names|
  {
    if names == [] then denied else DenyEach(WithDenied(denied, names[0]), names[1..])
  }

  /**
   * The bulk Plot.addDenied(HashSet) is a plain union that skips the wildcard
   * check. The one-by-one adds may store fewer names (a name already covered by
   * "*" is not stored), yet both give the same answer to the denial predicate
   * for every player, and every name added is denied afterwards.
   */
  lemma {:induction false} DenyEachAgreesWithUnion(denied: set<string>, names: seq<string>)
    ensures denied <= DenyEach(denied, names) <= denied + Elements(names)
    ensures forall x :: DeniedBy(DenyEach(denied, names), x) <==> DeniedBy(denied + Elements(names), x)
    ensures forall n :: n in names ==> DeniedBy(DenyEach(denied, names), n)
    decreases |names|
  {
    if names != [] {
      var d := WithDenied(denied, names[0]);
      var rest := names[1..];
      assert Elements(names) == {names[0]} + Elements(rest) by {
        forall x ensures x in Elements(names) <==> x in {names[0]} + Elements(rest) {
          if x in names && x != names[0] {
            var i :| 0 <= i < |names| && names[i] == x;
            assert rest[i - 1] == x;
          }
        }
      }
      DenyEachAgreesWithUnion(d, rest);
      forall x ensures DeniedBy(d + Elements(rest), x) <==> DeniedBy(denied + Elements(names), x) {
      }
      forall n | n in names ensures DeniedBy(DenyEach(denied, names), n) {
        if n != names[0] {
          assert n in rest;
        }
      }
    }
  }

  /** With no wildcard anywhere, adding one by one stores exactly the union. */
  lemma {:induction false} DenyEachWithoutWildcard(denied: set<string>, names: seq<string>)
    requires Wildcard !in denied && Wildcard !in names
    ensures DenyEach(denied, names) == denied + Elements(names)
    decreases |names|
  {
    if names != [] {
      var rest := names[1..];
      assert Elements(names) == {names[0]} + Elements(rest) by {
        forall x ensures x in Elements(names) <==> x in {names[0]} + Elements(rest) {
          if x in names && x != names[0] {
            var i :| 0 <= i < |names| && names[i] == x;
            assert rest[i - 1] == x;
          }
        }
      }
      DenyEachWithoutWildcard(WithDenied(denied, names[0]), rest);
    }
  }

  /**
   * Plot.addMember: "*" replaces every entry by the single wildcard entry at
   * ALLOWED, whatever level was asked for; any other name gets its level and
   * every other entry stays as it was.
   */
  function WithMember(members: map<string, AccessLevel>, name: string, level: AccessLevel): (r: map<string, AccessLevel>)
    ensures name == Wildcard ==> r.Keys == {Wildcard} && r[Wildcard] == Allowed
    ensures name != Wildcard ==> r.Keys == members.Keys + {name} && r[name] == level
    ensures name != Wildcard ==> forall k :: k in members && k != name ==> r[k] == members[k]
  {
    if name == Wildcard then map[Wildcard := Allowed] else members[name := level]
  }

  /** Plot.removeMember: only that key goes; nothing changes when it is absent. */
  function WithoutMember(members: map<string, AccessLevel>, name: string): (r: map<string, AccessLevel>)
    ensures r.Keys == members.Keys - {name}
    ensures forall k :: k in r ==> r[k] == members[k]
    ensures name !in members ==> r == members
  {
    members - {name}
  }

  /**
   * Plot.addMembers: a plain overwrite. Unlike addMember, a "*" key in the
   * added map does not clear the entries already there.
   */
  function MergeMembers(members: map<string, AccessLevel>, extra: map<string, AccessLevel>): (r: map<string, AccessLevel>)
    ensures r.Keys == members.Keys + extra.Keys
    ensures forall k :: k in extra ==> r[k] == extra[k]
    ensures forall k :: k in members && k !in extra ==> r[k] == members[k]
  {
    members + extra
  }

  /**
   * Plot.resetExpire with the current day `now`: zero days clears the expiry;
   * otherwise the expiry becomes now + days only when there was none or it was
   * strictly earlier, so an existing expiry never moves earlier.
   */
  function NextExpiry(current: Option<int>, days: int, now: int): (r: Option<int>)
    ensures days == 0 ==> r == None
    ensures days != 0 ==> r.Some? && now + days <= r.value
    ensures days != 0 && current.Some? ==> current.value <= r.value
    ensures days != 0 ==> r == current || r == Some(now + days)
  {
    if days == 0 then None
    else if current.None? || now + days > current.value then Some(now + days)
    else current
  }

  /** One call of resetExpire: how many days, and the day it was made on. */
  datatype Reset = Reset(days: int, now: int)

  /** The expiry after a sequence of resetExpire calls, in order. */
  function ExpiryAfter(current: Option<int>, resets: seq<Reset>): Option<int>
    decreases |resets|
  {
    if resets == [] then current
    else ExpiryAfter(NextExpiry(current, resets[0].days, resets[0].now), resets[1..])
  }

  /**
   * Over any run of non-zero resets the expiry only extends: it ends no
   * earlier than where it started and no earlier than any date asked for, and
   * it is either where it started or one of the dates asked for.
   */
  lemma {:induction false} ExpiryOnlyExtends(current: Option<int>, resets: seq<Reset>)
    requires forall i :: 0 <= i < |resets| ==> resets[i].days != 0
    ensures current.Some? ==> ExpiryAfter(current, resets).Some? && current.value <= ExpiryAfter(current, resets).value
    ensures forall i :: 0 <= i < |resets| ==>
      ExpiryAfter(current, resets).Some? && resets[i].now + resets[i].days <= ExpiryAfter(current, resets).value
    ensures ExpiryAfter(current, resets) == current ||
      exists i :: 0 <= i < |resets| && ExpiryAfter(current, resets) == Some(resets[i].now + resets[i].days)
    decreases |resets|
  {
    if resets != [] {
      var next := NextExpiry(current, resets[0].days, resets[0].now);
      var rest := resets[1..];
      assert forall i :: 0 <= i < |rest| ==> rest[i] == resets[i + 1];
      ExpiryOnlyExtends(next, rest);
      var r := ExpiryAfter(current, resets);
      assert r == ExpiryAfter(next, rest);
      if r != next {
        var i :| 0 <= i < |rest| && r == Some(rest[i].now + rest[i].days);
        assert r == Some(resets[i + 1].now + resets[i + 1].days);
      } else if next != current {
        assert r == Some(resets[0].now + resets[0].days);
      }
    }
  }

  /**
   * Two resets made in order, the later one asking for a date no earlier than
   * the first: the result is what the later reset alone gives, and taking the
   * two in the other order changes nothing after the later one.
   */
  lemma ResetOrderIrrelevant(current: Option<int>, d1: int, now1: int, d2: int, now2: int)
    requires d1 != 0 && d2 != 0
    requires now1 + d1 <= now2 + d2
    ensures NextExpiry(NextExpiry(current, d1, now1), d2, now2) == NextExpiry(current, d2, now2)
    ensures NextExpiry(NextExpiry(current, d2, now2), d1, now1) == NextExpiry(current, d2, now2)
  {
  }

  /** Java's 32-bit int. */
  type Int32 = x: int | -0x8000_0000 <= x < 0x8000_0000

  /** Java int subtraction: the exact difference, wrapped around modulo 2^32. */
  function Sub32(a: Int32, b: Int32): (r: Int32)
    ensures (r - (a - b)) % 0x1_0000_0000 == 0
    ensures -0x8000_0000 <= a - b < 0x8000_0000 ==> r == a - b
  {
    var d := (a - b) % 0x1_0000_0000;
    if d >= 0x8000_0000 then d - 0x1_0000_0000 else d
  }

  /**
   * Plot.setPlotProperty: the namespace is created when missing, the key is
   * set in it, and every other namespace and every other key stays as it was.
   */
  function WithProperty(metadata: map<string, map<string, string>>, ns: string, key: string, value: string)
    : (r: map<string, map<string, string>>)
    ensures r.Keys == metadata.Keys + {ns}
    ensures r[ns].Keys == (if ns in metadata then metadata[ns].Keys else {}) + {key} && r[ns][key] == value
    ensures ns in metadata ==> forall k :: k in metadata[ns] && k != key ==> r[ns][k] == metadata[ns][k]
    ensures forall n :: n in metadata && n != ns ==> r[n] == metadata[n]
  {
    var inner := if ns in metadata then metadata[ns] else map[];
    metadata[ns := inner[key := value]]
  }
}
