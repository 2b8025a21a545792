/**
 * The Plot entity of Plot.java: one parcel's ownership, membership, denial,
 * likes, metadata and lifecycle dates, held in fields that its methods update
 * in place. Dates are day numbers; the current day is passed in as `now`.
 */
module Plots {
  import opened Wrappers
  import opened PlotRules

  /** A player's UUID, held as its canonical text form. */
  datatype Uuid = Uuid(canonical: string) {
    /** UUID.toString. */
    function ToString(): string
    {
      canonical
    }
  }

  /** A plot's cell in its world's grid; equal by value. */
  datatype PlotId = PlotId(x: int, z: int)

  /** The world a plot belongs to, compared by value. */
  datatype World = World(name: string)

  /** The five fields Plot.equals compares: the identity of a stored record. */
  datatype RecordKey = RecordKey(internalId: int, id: PlotId, ownerId: Uuid, world: World, expiredDate: Option<int>)

  class Plot {
    var members: map<string, AccessLevel>
    var denied: set<string>
    var metadata: map<string, map<string, string>>
    var likers: set<Uuid>
    var likes: Int32
    var finished: bool
    var finishedDate: Option<int>
    var expiredDate: Option<int>
    var owner: string
    var ownerId: Uuid
    var world: World
    var id: PlotId
    var internalId: int
    const createdDate: Option<int>

    /** The finished flag and the finished date are set and cleared together. */
    predicate FinishedConsistent()
      reads this
    {
      finished <==> finishedDate.Some?
    }

    /**
     * The constructor for a new claim: no members, nobody denied, not
     * finished, no expiry, no likes, not yet stored (internal id 0), created today.
     */
    constructor (owner: string, uuid: Uuid, world: World, plotId: PlotId, now: int)
      ensures this.owner == owner && ownerId == uuid && this.world == world && id == plotId
      ensures members == map[] && denied == {} && metadata == map[]
      ensures likers == {} && likes == 0
      ensures !finished && finishedDate == None && expiredDate == None
      ensures internalId == 0 && createdDate == Some(now)
      ensures FinishedConsistent()
    {
      this.owner := owner;
      ownerId := uuid;
      this.world := world;
      id := plotId;
      members := map[];
      denied := {};
      metadata := map[];
      likers := {};
      likes := 0;
      finished := false;
      finishedDate := None;
      expiredDate := None;
      internalId := 0;
      createdDate := Some(now);
    }

    /**
     * The constructor that restores a stored plot: every field is copied in as
     * given. Nothing ties `finished` to `finishedDate` here, so
     * FinishedConsistent is not promised.
     */
    constructor Restore(internalId: int, owner: string, ownerId: Uuid, world: World, expiredDate: Option<int>,
                        allowed: map<string, AccessLevel>, denied: set<string>, likers: set<Uuid>, id: PlotId,
                        finished: bool, finishedDate: Option<int>, metadata: map<string, map<string, string>>,
                        plotLikes: Int32, createdDate: Option<int>)
      ensures this.internalId == internalId && this.owner == owner && this.ownerId == ownerId
      ensures this.world == world && this.expiredDate == expiredDate && this.id == id
      ensures members == allowed && this.denied == denied && this.likers == likers && this.metadata == metadata
      ensures this.finished == finished && this.finishedDate == finishedDate
      ensures likes == plotLikes && this.createdDate == createdDate
    {
      this.internalId := internalId;
      this.owner := owner;
      this.ownerId := ownerId;
      this.world := world;
      this.expiredDate := expiredDate;
      this.finished := finished;
      this.finishedDate := finishedDate;
      members := allowed;
      this.id := id;
      this.likers := likers;
      likes := plotLikes;
      this.denied := denied;
      this.metadata := metadata;
      this.createdDate := createdDate;
    }

    /** Plot.resetExpire: extends the expiry to now + days, or clears it for zero days. */
    method ResetExpire(days: int, now: int)
      modifies this`expiredDate
      ensures expiredDate == NextExpiry(old(expiredDate), days, now)
    {
      if days == 0 {
        if expiredDate != None {
          expiredDate := None;
        }
      } else {
        var temp := now + days;
        if expiredDate == None || temp > expiredDate.value {
          expiredDate := Some(temp);
        }
      }
    }

    /** Plot.addMember. */
    method AddMember(name: string, level: AccessLevel)
      modifies this`members
      ensures members == WithMember(old(members), name, level)
      ensures name == Wildcard ==> forall x :: IsMember(x) == Some(Allowed)
      ensures name != Wildcard ==> IsMember(name) == Some(if Wildcard in old(members) then Allowed else level)
    {
      if name == Wildcard {
        members := map[];
        members := members[name := Allowed];
      } else {
        members := members[name := level];
      }
    }

    /** Plot.addDenied(String): afterwards the name is denied; adding an already denied name changes nothing. */
    method AddDenied(name: string)
      modifies this`denied
      ensures denied == WithDenied(old(denied), name)
      ensures IsDenied(name)
      ensures old(IsDenied(name)) ==> denied == old(denied)
      ensures !old(IsDenied(name)) ==> denied == old(denied) + {name}
      ensures name == Wildcard ==> forall x :: IsDenied(x)
    {
      if !IsDenied(name) {
        denied := denied + {name};
      }
    }

    /** Plot.removeMember, and Plot.removeMembers, which does the same. */
    method RemoveMember(name: string)
      modifies this`members
      ensures members == WithoutMember(old(members), name)
    {
      if name in members {
        members := members - {name};
      }
    }

    /** Plot.removeDenied. */
    method RemoveDenied(name: string)
      modifies this`denied
      ensures denied == WithoutDenied(old(denied), name)
      ensures name != Wildcard && Wildcard in old(denied) ==> forall x :: IsDenied(x)
    {
      if name in denied {
        denied := denied - {name};
      }
    }

    /** Plot.removeAllMembers. */
    method RemoveAllMembers()
      modifies this`members
      ensures members == map[]
      ensures forall x :: IsMember(x) == None
    {
      members := map[];
    }

    /** Plot.removeAllDenied. */
    method RemoveAllDenied()
      modifies this`denied
      ensures denied == {}
      ensures forall x :: !IsDenied(x)
    {
      denied := {};
    }

    /** Plot.isDenied(String) through isDeniedInternal. */
    predicate IsDenied(name: string)
      reads this
      ensures IsDenied(name) <==> Wildcard in denied || name in denied
    {
      DeniedBy(denied, name)
    }

    /** Plot.isDenied(UUID): the UUID is checked by its text form. */
    predicate IsDeniedId(uuid: Uuid)
      reads this
      ensures IsDeniedId(uuid) <==> Wildcard in denied || uuid.ToString() in denied
    {
      IsDenied(uuid.ToString())
    }

    /** Plot.setFinished: the flag and the finished date (today, or none) change together. */
    method SetFinished(finished: bool, now: int)
      modifies this`finished, this`finishedDate
      ensures this.finished == finished
      ensures finishedDate == if finished then Some(now) else None
      ensures FinishedConsistent()
    {
      this.finished := finished;
      if finished {
        finishedDate := Some(now);
      } else {
        finishedDate := None;
      }
    }

    /** Plot.getPlotProperty: the namespace must exist; a missing key gives no value. */
    function GetPlotProperty(ns: string, key: string): (r: Option<string>)
      reads this
      requires ns in metadata
      ensures r.Some? <==> key in metadata[ns]
      ensures r.Some? ==> r.value == metadata[ns][key]
    {
      if key in metadata[ns] then Some(metadata[ns][key]) else None
    }

    /** Plot.setPlotProperty: always succeeds, and the value can be read back at once. */
    method SetPlotProperty(ns: string, key: string, value: string) returns (ok: bool)
      modifies this`metadata
      ensures ok
      ensures metadata == WithProperty(old(metadata), ns, key, value)
      ensures ns in metadata && GetPlotProperty(ns, key) == Some(value)
    {
      if ns !in metadata {
        metadata := metadata[ns := map[]];
      }
      metadata := metadata[ns := metadata[ns][key := value]];
      ok := true;
    }

    /** Plot.addLike: the count is assigned, not incremented, and the player becomes a liker. */
    method AddLike(likes: Int32, player: Uuid)
      modifies this`likers, this`likes
      ensures likers == old(likers) + {player}
      ensures this.likes == likes
      ensures !CanPlayerLike(player)
    {
      likers := likers + {player};
      this.likes := likes;
    }

    /** Plot.canPlayerLike. */
    predicate CanPlayerLike(player: Uuid)
      reads this
      ensures CanPlayerLike(player) <==> player !in likers
    {
      player !in likers
    }

    /** Plot.removeLike: subtracts from the count with int wrap-around and forgets the liker. */
    method RemoveLike(i: Int32, player: Uuid)
      modifies this`likers, this`likes
      ensures likes == Sub32(old(likes), i)
      ensures likers == old(likers) - {player}
      ensures CanPlayerLike(player)
    {
      likes := Sub32(likes, i);
      likers := likers - {player};
    }

    /** Plot.isMember(String): everyone is ALLOWED under the wildcard, otherwise the stored level if any. */
    function IsMember(name: string): (r: Option<AccessLevel>)
      reads this
      ensures Wildcard in members ==> r == Some(Allowed)
      ensures Wildcard !in members ==> (r.Some? <==> name in members)
      ensures Wildcard !in members && name in members ==> r == Some(members[name])
    {
      if Wildcard in members then Some(Allowed)
      else if name in members then Some(members[name])
      else None
    }

    /** Plot.isMember(UUID): the UUID is looked up by its text form. */
    function IsMemberId(uuid: Uuid): (r: Option<AccessLevel>)
      reads this
      ensures Wildcard in members ==> r == Some(Allowed)
      ensures Wildcard !in members ==> (r.Some? <==> uuid.ToString() in members)
      ensures Wildcard !in members && uuid.ToString() in members ==> r == Some(members[uuid.ToString()])
    {
      IsMember(uuid.ToString())
    }

    /** Plot.addDenied(HashSet): a plain union, with no wildcard check. */
    method AddAllDenied(names: set<string>)
      modifies this`denied
      ensures denied == old(denied) + names
      ensures forall n :: n in names ==> IsDenied(n)
    {
      denied := denied + names;
    }

    /** Plot.addMembers: a plain overwrite, with no wildcard normalisation. */
    method AddMembers(allowed: map<string, AccessLevel>)
      modifies this`members
      ensures members == MergeMembers(old(members), allowed)
    {
      members := members + allowed;
    }

    /** The record identity Plot.equals compares. */
    function Key(): RecordKey
      reads this
    {
      RecordKey(internalId, id, ownerId, world, expiredDate)
    }

    /**
     * Plot.equals: another plot with the same internal id, grid id, owner id,
     * world and expiry; members, denials, likes and metadata play no part.
     */
    predicate Equals(other: Plot?)
      reads this, other
      ensures Equals(other) <==> other != null && other.Key() == Key()
    {
      other != null
      && other.internalId == internalId
      && other.id == id
      && other.ownerId == ownerId
      && other.world == world
      && other.expiredDate == expiredDate
    }
  }

  /** Plot.equals is an equivalence on plots. */
  lemma EqualsIsEquivalence(a: Plot, b: Plot, c: Plot)
    ensures a.Equals(a)
    ensures a.Equals(b) ==> b.Equals(a)
    ensures a.Equals(b) && b.Equals(c) ==> a.Equals(c)
  {
  }
}
