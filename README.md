# PlotMe plot access control, in Dafny

This project models the core of PlotMe-Core's plot handling and proves properties of it:

- the `Plot` entity: its member map (player name to ALLOWED or TRUSTED), its denied set, the `"*"` wildcard rules in both, likes, per-plugin metadata, the finished flag and date, and the expiry date;
- the deny listener: it holds a denied player in place on a move, letting only their facing change. When a denied player joins inside the plot, it sends them to the plot's home.

Layout:

- `wrappers.dfy`: `Option`.
- `plot_rules.dfy` (module `PlotRules`): the rules `Plot` follows, stated on plain values:
  - access-level codes;
  - the wildcard and the denial predicate;
  - the add and remove operations on the sets and maps;
  - the expiry-extension policy;
  - Java `int` subtraction;
  - the metadata put.

  Its lemmas relate chains of calls, for example a run of `addDenied` calls against the bulk union, or a run of `resetExpire` calls.
- `plot.dfy` (module `Plots`): class `Plot`. Its fields are updated in place by methods whose frames name exactly the fields they change. The read-only operations (`isDenied`, `isMember`, `canPlayerLike`, `getPlotProperty`, `equals`) are functions and predicates of the class.
- `deny_listener.dfy` (module `DenyListener`): the decision the two event handlers make, as functions, plus methods that write the result onto a move event or a player.

Time is an `int` day number that callers pass in as `now`. Dates are `Option<int>`: `None` stands for Java's `null`. A UUID is held as its canonical text, so `isDenied(UUID)` checks the same string `UUID.toString()` gives.

The plot manager's lookups are not part of this model. The listener takes them as given values, bundled in a `Manager` record:
- `isPlotWorld`, as a set of world names;
- `getPlotId`, as a function from location to id text;
- `getCachedPlotById`, as a map from id text and world name to a `Plot`;
- `getPlotHome`, as a function.

Two behaviours of the source are easy to misread:
- `addLike(n, p)` assigns the like count `n`. It does not add `n` to the count.
- `getPlotProperty` on a namespace that was never set fails in the source, because it dereferences a missing map. The model therefore requires the namespace to be present. A missing key inside a present namespace gives `None`.

One assumption: `onPlayerMove` calls a two-argument `isDeniedInternal(name, uuid)`, but `Plot.java` has no such method. The model reads that call as `isDenied(name) || isDenied(uuid)`, i.e. the player is denied by name or by UUID (`DenyListener.DeniedOnMove`).

## Model

| member | source | states |
|---|---|---|
| PlotRules.Level | src/main/java/com/worldcretornica/plotme_core/Plot.java:459-482 | The code of a level is 0 or 1, and it is 0 exactly for ALLOWED. |
| PlotRules.FromLevel | src/main/java/com/worldcretornica/plotme_core/Plot.java:469-478 | Decoding agrees with the stored code for 0 and 1; every other code decodes to ALLOWED. |
| PlotRules.LevelRoundTrip | src/main/java/com/worldcretornica/plotme_core/Plot.java:459-482 | Decoding a level's code gives that level back. |
| PlotRules.WithDenied | src/main/java/com/worldcretornica/plotme_core/Plot.java:135-139 | After a single add the name is denied. The set only grows, and by at most that name. It is unchanged exactly when the name was already denied, including through `"*"`. |
| PlotRules.WithoutDenied | src/main/java/com/worldcretornica/plotme_core/Plot.java:155-159 | Removing drops exactly that name, leaves every other entry, and is a no-op when the name is absent. |
| PlotRules.DenyEachAgreesWithUnion | src/main/java/com/worldcretornica/plotme_core/Plot.java:371-373 | Single adds in any order store between the old set and the bulk union. They deny exactly the players the bulk union (no wildcard check) denies, and every added name ends up denied. |
| PlotRules.DenyEachWithoutWildcard | src/main/java/com/worldcretornica/plotme_core/Plot.java:135-139 | With no `"*"` in play, single adds store exactly the union of the names. |
| PlotRules.WithMember | src/main/java/com/worldcretornica/plotme_core/Plot.java:126-133 | Adding `"*"` leaves the single entry `"*"` at ALLOWED, whatever level was asked for. Any other name gets its level, and every other key keeps its level. |
| PlotRules.WithoutMember | src/main/java/com/worldcretornica/plotme_core/Plot.java:149-153 | Removing drops only that key, leaves the other levels, and is a no-op when the key is absent. |
| PlotRules.MergeMembers | src/main/java/com/worldcretornica/plotme_core/Plot.java:375-377 | The bulk add gives the union of the keys. Added entries win, the others are kept, and a `"*"` key clears nothing. |
| PlotRules.NextExpiry | src/main/java/com/worldcretornica/plotme_core/Plot.java:81-95 | Zero days clears the expiry. Any other count gives an expiry no earlier than `now + days` and no earlier than the old one, and it is either the old one or `now + days`. |
| PlotRules.ExpiryOnlyExtends | src/main/java/com/worldcretornica/plotme_core/Plot.java:81-95 | Over any run of non-zero resets, the expiry ends no earlier than it started and no earlier than any date asked for. It ends either where it started or at one of the dates asked for. |
| PlotRules.ResetOrderIrrelevant | src/main/java/com/worldcretornica/plotme_core/Plot.java:81-95 | Take two non-zero resets where the second asks for a date no earlier than the first. In that order they give the second alone. In the reverse order the first changes nothing. |
| PlotRules.Sub32 | src/main/java/com/worldcretornica/plotme_core/Plot.java:415-418 | Java `int` subtraction: the result is congruent to the exact difference modulo 2^32, and equal to it when the difference fits in 32 bits. |
| PlotRules.WithProperty | src/main/java/com/worldcretornica/plotme_core/Plot.java:277-283 | A missing namespace is created, and the key holds the value. Every other key of that namespace and every other namespace is unchanged. |
| Plots.Plot.constructor | src/main/java/com/worldcretornica/plotme_core/Plot.java:41-49 | A new claim starts with no members, no denials, no likes, no metadata, not finished with no finished date, no expiry and internal id 0. The finished invariant holds. |
| Plots.Plot.Restore | src/main/java/com/worldcretornica/plotme_core/Plot.java:51-79 | Every stored field is copied in as given. No finished invariant is promised. |
| Plots.Plot.ResetExpire | src/main/java/com/worldcretornica/plotme_core/Plot.java:81-95 | Only the expiry changes, and it becomes `NextExpiry` of the old expiry. |
| Plots.Plot.AddMember | src/main/java/com/worldcretornica/plotme_core/Plot.java:126-133 | Only the member map changes, as `WithMember` says. After `"*"` everyone is ALLOWED. After another name, that name's effective level is the level asked for, or ALLOWED under an earlier wildcard. |
| Plots.Plot.AddDenied | src/main/java/com/worldcretornica/plotme_core/Plot.java:135-139 | Only the denied set changes, and afterwards the name is denied. A name already denied leaves the set unchanged; otherwise the set grows by exactly the name. Adding `"*"` denies everyone. |
| Plots.Plot.RemoveMember | src/main/java/com/worldcretornica/plotme_core/Plot.java:141-153 | `removeMember`, and `removeMembers`, which does the same: only that key goes. |
| Plots.Plot.RemoveDenied | src/main/java/com/worldcretornica/plotme_core/Plot.java:155-159 | Only that name goes. Removing a specific name does not lift an active `"*"` denial. |
| Plots.Plot.RemoveAllMembers | src/main/java/com/worldcretornica/plotme_core/Plot.java:161-163 | The member map is empty, and nobody is a member. |
| Plots.Plot.RemoveAllDenied | src/main/java/com/worldcretornica/plotme_core/Plot.java:165-167 | The denied set is empty, and nobody is denied. |
| Plots.Plot.IsDenied | src/main/java/com/worldcretornica/plotme_core/Plot.java:169-179 | A name is denied iff `"*"` or the name is in the denied set. |
| Plots.Plot.IsDeniedId | src/main/java/com/worldcretornica/plotme_core/Plot.java:173-175 | A UUID is denied iff `"*"` or its text form is in the denied set. |
| Plots.Plot.SetFinished | src/main/java/com/worldcretornica/plotme_core/Plot.java:209-216 | The flag is set as asked. The finished date is today when the flag is set and absent when it is cleared, so the finished invariant holds. |
| Plots.Plot.GetPlotProperty | src/main/java/com/worldcretornica/plotme_core/Plot.java:273-275 | With the namespace present, there is a value iff the key is stored, and it is the stored value. |
| Plots.Plot.SetPlotProperty | src/main/java/com/worldcretornica/plotme_core/Plot.java:277-283 | Returns true. The metadata becomes `WithProperty` of the old metadata, and the value reads back at once. |
| Plots.Plot.AddLike | src/main/java/com/worldcretornica/plotme_core/Plot.java:315-318 | The count becomes the given number. The player joins the likers and can no longer like. |
| Plots.Plot.CanPlayerLike | src/main/java/com/worldcretornica/plotme_core/Plot.java:411-413 | A player can like iff they are not among the likers. |
| Plots.Plot.RemoveLike | src/main/java/com/worldcretornica/plotme_core/Plot.java:415-418 | The count drops by the given number with `int` wrap-around. The player leaves the likers and can like again. |
| Plots.Plot.IsMember | src/main/java/com/worldcretornica/plotme_core/Plot.java:420-426 | Under a `"*"` key every name is ALLOWED. Otherwise a name has a level iff it is a key, and the level is the stored one. |
| Plots.Plot.IsMemberId | src/main/java/com/worldcretornica/plotme_core/Plot.java:428-430 | A UUID's membership is looked up by its text form: ALLOWED under a `"*"` key, otherwise the level stored under the text form, or none when it is not a key. |
| Plots.Plot.AddAllDenied | src/main/java/com/worldcretornica/plotme_core/Plot.java:371-373 | The denied set becomes the plain union with the given names, and each of them is denied. |
| Plots.Plot.AddMembers | src/main/java/com/worldcretornica/plotme_core/Plot.java:375-377 | The member map becomes `MergeMembers` of the old map and the given one. |
| Plots.Plot.Equals | src/main/java/com/worldcretornica/plotme_core/Plot.java:392-409 | Two plots are equal iff the other is non-null and has the same internal id, grid id, owner id, world and expiry. Nothing else is compared. |
| Plots.EqualsIsEquivalence | src/main/java/com/worldcretornica/plotme_core/Plot.java:392-409 | `equals` is reflexive, symmetric and transitive on plots. |
| DenyListener.MoveDestination | src/bukkit/java/com/worldcretornica/plotme_core/bukkit/listener/BukkitPlotDenyListener.java:27-44 | When enforcement applies and the plot cached at the destination denies the player by name or UUID, the destination takes the origin's position with the destination's yaw and pitch. Otherwise the destination is unchanged. |
| DenyListener.JoinLocation | src/bukkit/java/com/worldcretornica/plotme_core/bukkit/listener/BukkitPlotDenyListener.java:47-59 | When enforcement applies and the plot cached where the player stands denies their UUID, the player goes to that plot's home. Otherwise the player stays where they are. |
| DenyListener.OnPlayerMove | src/bukkit/java/com/worldcretornica/plotme_core/bukkit/listener/BukkitPlotDenyListener.java:27-44 | Only the event's destination is written, and it becomes `MoveDestination`. Every cached plot's denied set, members and likers are unchanged. |
| DenyListener.OnPlayerJoin | src/bukkit/java/com/worldcretornica/plotme_core/bukkit/listener/BukkitPlotDenyListener.java:47-59 | Only the player's location is written, and it becomes `JoinLocation`. Every cached plot's denied set, members and likers are unchanged. |
| DenyListener.GateSkipsLookups | src/bukkit/java/com/worldcretornica/plotme_core/bukkit/listener/BukkitPlotDenyListener.java:30 | Outside plot worlds, or with the bypass permission, both handlers leave the destination and the location unchanged. The result does not depend on the grid, the cache or the homes. |
| DenyListener.NameOnlyDenialBlocksMoveNotJoin | src/bukkit/java/com/worldcretornica/plotme_core/bukkit/listener/BukkitPlotDenyListener.java:30-57 | A player denied by name only is held back on a move but not relocated on join, because join checks the UUID form alone. |
| DenyListener.DeniedMoveScenario | src/bukkit/java/com/worldcretornica/plotme_core/bukkit/listener/BukkitPlotDenyListener.java:38-41 | A player denied by name tries to step from (5, 64, 5) at yaw 90 to (6, 64, 5) at yaw 45. They stay at (5, 64, 5) and face yaw 45. |
| DenyListener.WildcardJoinScenario | src/bukkit/java/com/worldcretornica/plotme_core/bukkit/listener/BukkitPlotDenyListener.java:50-57 | Under a `"*"` denial, every joining player without bypass is sent to the plot's home. |

## Left out

- The full constructor `Restore` does not guarantee `finished <==> finishedDate present`. It copies both fields independently, so the invariant holds only after the short constructor and after `SetFinished`.
- The full constructor copies the metadata map shallowly, so the caller's inner maps are shared with the plot. The getters `getMembers`, `getDenied`, `getLikers` and `getAllPlotProperties` return the live collections. The model keeps every collection as its own value, so it does not capture this aliasing.
- `setLikers` replaces the likers set, and `setLikes`, the owner, biome, plot name, world, id, internal id, protect flag, for-sale flag (`isForSale`/`setForSale`) and price getters and setters are plain field accesses. They are not modelled as methods.
- The public `setExpiredDate` writes any date, an earlier one or none included, and is not modelled as a method. The monotonic extension proved by `PlotRules.ExpiryOnlyExtends` and `PlotRules.ResetOrderIrrelevant` is therefore a property of runs of `resetExpire`, not of the plot in general.
- Plot corners, `getMiddle`, the top and bottom block coordinates, and the price are left out: they are floating-point geometry and money. Listener positions and yaw/pitch are values that are only copied.
- Calendar, date formatting and `java.sql.Date` are left out. The current day is a parameter, and dates are day numbers with no time of day.
- `UUID.randomUUID()` as the default owner id is left out: the short constructor always overwrites it with the given UUID. `toString` is also left out.
- Plots.Plot.GetPlotProperty: requires the namespace to be present, because the source dereferences the missing inner map and throws a NullPointerException there; the model does not represent that exception.
- `Plots.Plot.Equals`: the source's `equals(Object)` also returns false for objects that are not plots. The model compares only against a possibly-null `Plot`.
- The plot manager's internals (grid arithmetic behind `getPlotId`, cache maintenance, `isPlotWorld`, `getPlotHome`) are not part of this model. They are given values of the `Manager` record.
- Bukkit event dispatch and priority, player wrapping, the manager singleton and the permission lookup are left out. The bypass permission is a flag on the player.
