/**
 * The deny enforcement of BukkitPlotDenyListener.java: on a move into a plot
 * that denies the player, the player keeps their position but takes the new
 * facing; on joining inside such a plot, the player is sent to the plot's home.
 * Players holding the deny-bypass permission, and worlds that are not plot
 * worlds, are left alone without any plot lookup.
 */
module DenyListener {
  import opened Wrappers
  import opened Plots

  /** A game location: its world, a position and a facing, which are only ever copied here. */
  datatype Location = Location(world: string, x: real, y: real, z: real, yaw: real, pitch: real)

  /** What the handlers read of a player. */
  datatype Player = Player(name: string, uniqueId: Uuid, location: Location, bypassDeny: bool)

  /**
   * The plot manager's answers, taken as given: which worlds are plot worlds
   * (isPlotWorld), the grid id text at a location (getPlotId), the cached plots
   * keyed by id text and world name (getCachedPlotById) and each plot's home
   * (getPlotHome).
   */
  datatype Manager = Manager(
    plotWorlds: set<string>,
    plotIdAt: Location -> string,
    cache: map<(string, string), Plot>,
    plotHome: (string, PlotId) -> Location)

  /** The guard both handlers start with: a plot world, and no deny bypass. */
  predicate Enforced(m: Manager, p: Player)
  {
    p.location.world in m.plotWorlds && !p.bypassDeny
  }

  /** getCachedPlotById for the plot at a location, in the player's world. */
  function CachedPlotAt(m: Manager, p: Player, at: Location): Option<Plot>
  {
    var key := (m.plotIdAt(at), p.location.world);
    if key in m.cache then Some(m.cache[key]) else None
  }

  /** The denial test of onPlayerMove: the player is denied by name or by UUID. */
  predicate DeniedOnMove(plot: Plot, p: Player)
    reads plot
  {
    plot.IsDenied(p.name) || plot.IsDeniedId(p.uniqueId)
  }

  /** A move is held back: enforcement applies and the plot cached at the destination denies the player. */
  predicate MoveBlocked(m: Manager, p: Player, to: Location)
    reads m.cache.Values
  {
    Enforced(m, p) && CachedPlotAt(m, p, to).Some? && DeniedOnMove(CachedPlotAt(m, p, to).value, p)
  }

  /** A join is redirected: enforcement applies and the plot cached where the player stands denies their UUID. */
  predicate JoinRelocated(m: Manager, p: Player)
    reads m.cache.Values
  {
    Enforced(m, p) && CachedPlotAt(m, p, p.location).Some?
    && CachedPlotAt(m, p, p.location).value.IsDeniedId(p.uniqueId)
  }

  /** The position of `a` is that of `b`, in the same world. */
  predicate SamePosition(a: Location, b: Location)
  {
    a.world == b.world && a.x == b.x && a.y == b.y && a.z == b.z
  }

  /**
   * The destination onPlayerMove leaves on the event: unchanged unless the
   * move is blocked; when blocked, the origin's position with the destination's
   * yaw and pitch.
   */
  function MoveDestination(m: Manager, p: Player, from: Location, to: Location): (r: Location)
    reads m.cache.Values
    ensures MoveBlocked(m, p, to) ==> SamePosition(r, from) && r.yaw == to.yaw && r.pitch == to.pitch
    ensures !MoveBlocked(m, p, to) ==> r == to
  {
    if Enforced(m, p) then
      var plot := CachedPlotAt(m, p, to);
      if plot.Some? && DeniedOnMove(plot.value, p) then
        from.(yaw := to.yaw, pitch := to.pitch)
      else to
    else to
  }

  /**
   * The location onPlayerJoin leaves the player at: the home of the plot they
   * stand in when it denies their UUID, and where they are otherwise.
   */
  function JoinLocation(m: Manager, p: Player): (r: Location)
    reads m.cache.Values
    ensures JoinRelocated(m, p) ==>
      r == m.plotHome(p.location.world, m.cache[(m.plotIdAt(p.location), p.location.world)].id)
    ensures !JoinRelocated(m, p) ==> r == p.location
  {
    if Enforced(m, p) then
      var plot := CachedPlotAt(m, p, p.location);
      if plot.Some? && plot.value.IsDeniedId(p.uniqueId) then
        m.plotHome(p.location.world, plot.value.id)
      else p.location
    else p.location
  }

  /** A player as the server holds it: identity and permission fixed, location settable. */
  class GamePlayer {
    const name: string
    const uniqueId: Uuid
    const bypassDeny: bool
    var location: Location

    constructor (name: string, uniqueId: Uuid, bypassDeny: bool, location: Location)
      ensures this.name == name && this.uniqueId == uniqueId
      ensures this.bypassDeny == bypassDeny && this.location == location
    {
      this.name := name;
      this.uniqueId := uniqueId;
      this.bypassDeny := bypassDeny;
      this.location := location;
    }

    function Snapshot(): Player
      reads this
    {
      Player(name, uniqueId, location, bypassDeny)
    }
  }

  /** A move event: who moves, from where, and a destination the listener may replace. */
  class MoveEvent {
    const player: GamePlayer
    const from: Location
    var to: Location

    constructor (player: GamePlayer, from: Location, to: Location)
      ensures this.player == player && this.from == from && this.to == to
    {
      this.player := player;
      this.from := from;
      this.to := to;
    }
  }

  /** BukkitPlotDenyListener.onPlayerMove: only the event's destination is written; no plot changes. */
  method OnPlayerMove(m: Manager, event: MoveEvent)
    modifies event`to
    ensures event.to == MoveDestination(m, event.player.Snapshot(), event.from, old(event.to))
    ensures forall plot :: plot in m.cache.Values ==>
      plot.denied == old(plot.denied) && plot.members == old(plot.members) && plot.likers == old(plot.likers)
  {
    var player := event.player.Snapshot();
    if player.location.world in m.plotWorlds && !player.bypassDeny {
      var idTo := m.plotIdAt(event.to);
      var key := (idTo, player.location.world);
      if key in m.cache {
        var plot := m.cache[key];
        if plot.IsDenied(player.name) || plot.IsDeniedId(player.uniqueId) {
          var t := event.from;
          t := t.(yaw := event.to.yaw);
          t := t.(pitch := event.to.pitch);
          event.to := t;
        }
      }
    }
  }

  /** BukkitPlotDenyListener.onPlayerJoin: only the player's location is written; no plot changes. */
  method OnPlayerJoin(m: Manager, player: GamePlayer)
    modifies player`location
    ensures player.location == JoinLocation(m, old(player.Snapshot()))
    ensures forall plot :: plot in m.cache.Values ==>
      plot.denied == old(plot.denied) && plot.members == old(plot.members) && plot.likers == old(plot.likers)
  {
    var p := player.Snapshot();
    if p.location.world in m.plotWorlds && !p.bypassDeny {
      var id := m.plotIdAt(p.location);
      var key := (id, p.location.world);
      if key in m.cache {
        var plot := m.cache[key];
        if plot.IsDeniedId(p.uniqueId) {
          player.location := m.plotHome(p.location.world, plot.id);
        }
      }
    }
  }

  /**
   * Outside plot worlds and for bypassing players neither handler depends on
   * any plot lookup: two managers that agree on the plot worlds give the same,
   * unchanged result whatever their grids, caches and homes.
   */
  lemma GateSkipsLookups(m1: Manager, m2: Manager, p: Player, from: Location, to: Location)
    requires m1.plotWorlds == m2.plotWorlds
    requires !Enforced(m1, p)
    ensures MoveDestination(m1, p, from, to) == MoveDestination(m2, p, from, to) == to
    ensures JoinLocation(m1, p) == JoinLocation(m2, p) == p.location
  {
  }

  /**
   * A player denied only by name (no wildcard, UUID text not listed) is held
   * back when moving into the plot, but not relocated when joining inside it:
   * the join handler checks the UUID form only.
   */
  lemma NameOnlyDenialBlocksMoveNotJoin(m: Manager, p: Player, from: Location, to: Location, plot: Plot)
    requires Enforced(m, p)
    requires m.plotIdAt(to) == m.plotIdAt(p.location)
    requires (m.plotIdAt(to), p.location.world) in m.cache && m.cache[(m.plotIdAt(to), p.location.world)] == plot
    requires p.name in plot.denied && PlotRules.Wildcard !in plot.denied && p.uniqueId.ToString() !in plot.denied
    ensures SamePosition(MoveDestination(m, p, from, to), from)
    ensures JoinLocation(m, p) == p.location
  {
  }

  /**
   * A denied move keeps the origin's position with the new facing: a player
   * denied by name at (5, 64, 5) facing yaw 90 who tries to step to (6, 64, 5)
   * at yaw 45 stays at (5, 64, 5) and faces yaw 45.
   */
  lemma DeniedMoveScenario(m: Manager, p: Player, plot: Plot)
    requires p.name == "Alice" && !p.bypassDeny && p.location.world in m.plotWorlds
    requires var to := Location(p.location.world, 6.0, 64.0, 5.0, 45.0, 0.0);
      (m.plotIdAt(to), p.location.world) in m.cache && m.cache[(m.plotIdAt(to), p.location.world)] == plot
    requires plot.denied == {"Alice"}
    ensures var from := Location(p.location.world, 5.0, 64.0, 5.0, 90.0, 0.0);
      var to := Location(p.location.world, 6.0, 64.0, 5.0, 45.0, 0.0);
      MoveDestination(m, p, from, to) == Location(p.location.world, 5.0, 64.0, 5.0, 45.0, 0.0)
  {
  }

  /** Under a wildcard denial every joining player without bypass is sent to the plot's home. */
  lemma WildcardJoinScenario(m: Manager, p: Player, plot: Plot)
    requires Enforced(m, p)
    requires (m.plotIdAt(p.location), p.location.world) in m.cache
    requires m.cache[(m.plotIdAt(p.location), p.location.world)] == plot
    requires plot.denied == {PlotRules.Wildcard}
    ensures JoinLocation(m, p) == m.plotHome(p.location.world, plot.id)
  {
  }
}
