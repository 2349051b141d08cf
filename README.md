# Splatoon side-scroller: the simulation core

A model of the per-frame simulation in `game.js`. The game is a browser side-scroller. The player
picks one of three heroes:

- hero1 fires ink shots on a cooldown;
- hero2 throws a close-range ink splat and burns touching enemies with a timed contact aura;
- hero3 charges while the action key is held and, on release, fires a barrage of charged shots.

OctoSlob enemies stand on the ground or on platforms. They face the player and fire arcing shots
when the player is within range. Each frame the game does, in order:

1. move the player and apply the hero's attack;
2. apply gravity, then platform and ground landing;
3. move the camera after the player;
4. run the projectile pass;
5. update the enemies, then age the damage numbers;
6. close the invulnerability window.

The projectile pass first applies the capacity limit. It then walks the projectile list from its
end. Each projectile moves and may hit an enemy or the player, splash on a surface, or expire. The
particles it throws are appended past the part still to be visited.

The source's two records whose fields it updates in place, the game state and the player, are the
classes `Game.Game` and `Game.Player`. The loops the source runs to change that state are
`while`/`for` loops in methods, each proved against a specification function:

| method | specification function |
|---|---|
| the projectile pass | `Sweep.SweepAll` |
| the capacity limit | `Projectiles.Cull` |
| enemy upkeep | `Enemies.Upkeep` and `Enemies.Volley` |
| the contact aura | `Enemies.ScorchAll`, `Enemies.ScorchNumbers` and `Enemies.ScorchSparks` |
| damage-number ageing | `Enemies.AgeNumbers` |
| the platform tests | `Motion.FirstLanding` and `Projectiles.StrikesAny` |
| the boundary scan | `World.PlatformExtents` |
| the enemy slots | `World.Placed` |

Three loops of the source only compute a value and are recursive functions instead: the overlap
test of `isPositionOverlapping` (`World.IsPositionOverlapping`), and the `forEach` over the
platforms and the `filter` of the clear spots in enemy generation (`World.PlatformSpots` and
`World.ClearSpots`).

The properties the game relies on are proved about those functions:

- The pass keeps every projectile in play.
- The capacity limit removes only visual particles, youngest first.
- The player loses health to at most one enemy shot per frame.
- The charge machine never charges and barrages at once.
- Enemy placement keeps every pair of enemies apart.

The modules:

- `Geometry`: the overlap test.
- `Entities`: the records and constants.
- `Motion`: walking, landing and the camera.
- `Abilities`: the charge machine, the contact aura and the damage pipeline.
- `Projectiles`: spawning, motion, removal tests, hits and the capacity limit.
- `Enemies`: upkeep, the aimed shot, contact damage and damage numbers.
- `Sweep`: the projectile pass as a function.
- `World`: the level and enemy placement.
- `Game`: the classes and their methods.

The frame step gets three things as parameters:

- the clock, as one reading `now` per frame;
- the random draws, as a `SpawnDraw` per enemy slot, each in [0, 1);
- the aiming trigonometry, as a function `aim` from an offset to a velocity.

## Model

| member | source | states |
|---|---|---|
| Motion.Walk | game.js:508-525 | inside the world the player stays inside it and moves at most one step; right-only never moves left and left-only never moves right; with no arrow key nothing changes; facing follows the last key applied |
| Motion.FirstLanding | game.js:1686-1718 | the result is the first platform in list order the player lands on; none exactly when no platform catches the player |
| Motion.LandsOn | game.js:1702-1709 | no contract of its own: the landing test for one platform; FirstLanding and StandingIsStable state what it decides |
| Motion.StandingIsStable | game.js:1697-1716 | a player standing on a platform is caught again after a frame of gravity, by that platform unless an earlier one catches it |
| Motion.Jumped | game.js:527-530 | the player is jumping afterwards exactly when it was or the up key is held; a jump starts at the jump force of 15 upwards only from no jump under way, and a jump under way is never restarted |
| Motion.Fallen | game.js:561-573 | the player never ends below the ground line; landing on a platform leaves it at rest on that top, or on the ground when the top is below it; with no platform it rests on the ground when the fall reaches it and otherwise flies on with the speed plus gravity |
| Motion.RestsOnGround | game.js:561-573 | a player at rest on the ground stays there, whatever the platforms |
| Motion.TakesOff | game.js:527-573 | a jump from the ground rises by the jump force less one frame of gravity and stays in the air |
| Motion.Follow | game.js:576-590 | the camera stays inside the world's camera range; with a target inside the range the distance to it shrinks by the factor 0.9 |
| Motion.FollowConverges | game.js:576-590 | after n frames with a fixed target in range, the camera is in range and its distance to the target is the start distance shrunk n times |
| Motion.ShrunkNeverGrows | game.js:578-580 | the shrinking distance keeps its sign and never grows, so the camera never overshoots |
| Abilities.ChargeLevelAt | game.js:659-660 | the level is hold time over 3000 ms, at most 1; it is 1 exactly from 3000 ms on |
| Abilities.BarrageDurationFor | game.js:667-681 | 1500, 750, 500, 250 or 0 ms for a level of at least 1, 0.5, 0.25, above 0, or none, each in both directions |
| Abilities.DamageMultiplierFor | game.js:628-637 | 1.5, 1.25, 1.1 or 1 for a barrage of at least 1500, 750, 500 ms or shorter, each in both directions |
| Abilities.BarrageDurationMonotone | game.js:669-681 | a higher charge level never gives a shorter barrage |
| Abilities.DamageMultiplierMonotone | game.js:631-637 | a longer barrage never gives a smaller multiplier |
| Abilities.ReleasedChargeMultiplier | game.js:628-681 | a released charge fires unboosted shots exactly below a quarter charge, and 1.5x shots exactly at full charge |
| Abilities.ChargeStep | game.js:611-692 | charging and barraging stay exclusive; the level stays within [0, 1]; an idle machine in the global cooldown is unchanged; charging starts only from idle with the key held; release starts a barrage sized by the level exactly when the level is positive; a barrage ends after its duration; a shot fires exactly while a barrage runs and 100 ms have passed, with the duration's multiplier |
| Abilities.BarrageShotDamage | game.js:707 | a barrage shot does between 10 and 15 damage |
| Abilities.AuraStep | game.js:771-786 | the aura switches on only after its 1500 ms cooldown and off only after its 500 ms active time, recording each switch; a tick that does not switch changes nothing |
| Abilities.Hurt | game.js:1069-1084 | health drops by the amount while it stays above 0; reaching 0 costs exactly one life and refills health, or ends the game when no life is left |
| Abilities.HurtKeepsSound | game.js:1069-1084 | damage keeps health within [0, 75] and the game over exactly when no life is left |
| Abilities.InvulnerableAfter | game.js:602-607 | the window stays open exactly while at most 1000 ms have passed since the hit |
| Projectiles.InkShot | game.js:713-734 | a damaging player shot of 15 damage at speed 10 in the facing direction, from the front edge at mid height |
| Projectiles.ChargedShot | game.js:695-710 | a damaging 18x18 shot at speed 12 in the facing direction, of 10 times the multiplier |
| Projectiles.InkSplat | game.js:737-768 | 10 particles airborne and 8 on the ground, each a damaging splat of 7.5 or 5 damage |
| Projectiles.SplatParticle | game.js:740-767 | a damaging splat thrown ahead of the player at mid height, moving in the facing direction |
| Projectiles.SplashCount | game.js:1757-1758 | 3 plus a fifth of the width, rounded down, at most 8; 8 exactly from width 25 |
| Projectiles.Splash | game.js:1755-1780 | a splash has SplashCount particles, all visual only |
| Projectiles.SplashCountsOfShots | game.js:1757-1758 | enemy shots and splat particles splash 5 particles; ink and charged shots splash 6 |
| Projectiles.Moved | game.js:937-1000 | motion keeps size, damage, lifespan and flags; only splat particles age |
| Projectiles.OffscreenX | game.js:1018-1019 | no contract of its own: more than 100 beyond either side of the camera's view; VisitKept and TurnKept use it |
| Projectiles.Offscreen | game.js:926-928 | no contract of its own: OffscreenX or more than 100 below the canvas; VisitKept and TurnKept use it |
| Projectiles.StrikesPlatform | game.js:1731-1747 | no contract of its own: the centred box meets the platform, on its top edge or at a speed above 2; StrikesAnyMeansSome uses it |
| Projectiles.StrikesAny | game.js:1729-1749 | no contract of its own: the platform loop in list order; StrikesAnyMeansSome states what it finds |
| Projectiles.SurfaceHit | game.js:1721-1752 | no contract of its own: the ground test, then the platform loop; CheckProjectilePlatformCollision is proved against it |
| Projectiles.Removed | game.js:922-1022 | no contract of its own: the removal tests of one turn other than a hit; TurnKept, Unremoved and QuietPass use it |
| Projectiles.Expired | game.js:937-1022 | no contract of its own: the removal tests after moving, by kind; VisitKept uses it |
| Projectiles.StrikesAnyMeansSome | game.js:1728-1749 | the platform loop finds a strike exactly when some platform is struck |
| Projectiles.HitDamage | game.js:873 | a hit does the projectile's damage, or 15 when it has none |
| Projectiles.Struck | game.js:869-876 | an enemy's health drops by the damage, floored at 0, and its hit flash starts; nothing else changes |
| Projectiles.HitIndex | game.js:862-896 | the hit lands on the overlapping enemy with the highest index; none exactly when no enemy overlaps |
| Projectiles.Youngest | game.js:904-917 | the next particle removed is a visual one of the smallest age, the latest in the list among equal ages; none exactly when no visual particle is left |
| Projectiles.CosmeticCount | game.js:904-906 | the visual particles and the entries in play together make the whole list |
| Projectiles.RemoveCosmetic | game.js:912-918 | removing a visual particle keeps the entries in play and removes exactly that entry |
| Projectiles.Cull | game.js:901-920 | a list at or below 100 entries is unchanged; the limit never adds an entry |
| Projectiles.CullWithin | game.js:901-920 | the limit only removes entries from the list |
| Projectiles.CullFacts | game.js:901-920 | every entry in play survives in order; an over-full list ends at 100 entries, or with only entries in play when those number more |
| Projectiles.CullSparesOlder | game.js:909-917 | every removed entry is a visual particle no older than any visual particle kept |
| Enemies.NumberColour | game.js:1100-1102 | red for player damage; otherwise red from 20, orange from 10, yellow below, each in both directions |
| Enemies.NumberFor | game.js:1092-1109 | exactly one number for positive damage and none otherwise, at the point's x and 20 above it, of age 0 and lifespan 40 |
| Enemies.AgeNumbersFacts | game.js:1783-1799 | after a frame no number has reached its lifespan; numbers that all reach it are all gone |
| Enemies.AgedFromBefore | game.js:1783-1799 | every number left is one of the numbers before, aged by one frame |
| Enemies.NumberLifetime | game.js:1783-1799 | a number is shown, unchanged but for height and age, for exactly lifespan minus age frames |
| Enemies.Aged | game.js:1787-1792 | no contract of its own: the number rises by its speed and ages by one frame; AgedFromBefore and NumberLifetime use it |
| Enemies.AgeNumbers | game.js:1783-1799 | never longer than the list; AgeNumbersFacts, AgedFromBefore and NumberLifetime give its contents |
| Enemies.EnemyShot | game.js:1189-1224 | a damaging arcing enemy shot of 5 damage and size 12 from the enemy's centre, with gravity 0.05 |
| Enemies.EnemyTick | game.js:1152-1183 | box, health and spawn data unchanged; the flash ends after 200 ms; the frame cycles through 4; the enemy faces the player and fires when in range and off cooldown |
| Enemies.Upkeep | game.js:1143-1185 | upkeep never adds an enemy |
| Enemies.UpkeepAlive | game.js:1146-1150 | only enemies with health remain |
| Enemies.Living | game.js:1146-1150 | the kept enemies all have health and come from the list; every enemy with health is kept |
| Enemies.UpkeepTicksLiving | game.js:1143-1185 | upkeep keeps as many enemies as have health, and the k-th survivor is the k-th enemy with health, ticked |
| Enemies.UpkeepDrops | game.js:1146-1150 | an enemy is dropped exactly when some enemy has no health left |
| Enemies.UpkeepFrames | game.js:1157-1162 | every animation frame stays in its four-frame cycle |
| Enemies.Volley | game.js:1179-1183 | at most one shot per enemy, all damaging enemy shots; VolleyShooters and VolleyFires say which enemies fire |
| Enemies.Fires | game.js:1173-1180 | no contract of its own: the range and cooldown test of an OctoSlob; VolleyFires and FiringRestartsCooldown state what it decides |
| Enemies.AimOffset | game.js:1191-1198 | no contract of its own: the offset from the enemy's centre to the player's, which the shot's direction is taken from |
| Enemies.Shooters | game.js:1171-1183 | the firing enemies in list order: each is from the list, has health and `Fires`; every such enemy is among them |
| Enemies.ShotsOf | game.js:1189-1224 | one `EnemyShot` per shooter, in reverse list order |
| Enemies.VolleyShooters | game.js:1138-1185 | the volley is exactly the shots of the shooters, by induction over the list |
| Enemies.ShotsOfMembers | game.js:1189-1224 | a shot is among the shots of a list exactly when it is the shot of one of its members |
| Enemies.VolleyFires | game.js:1171-1183 | an enemy with health for which `Fires` holds has its `EnemyShot` in the volley, and every shot of the volley is the shot of such an enemy |
| Enemies.FiringRestartsCooldown | game.js:1180-1182 | an enemy that fired cannot fire again within 3000 ms |
| Enemies.Scorched | game.js:801-814 | an enemy touching the player loses 10 health, floored at 0, and flashes; others are unchanged; no enemy moves |
| Enemies.ScorchAll | game.js:798-827 | the aura keeps the enemy count |
| Enemies.ScorchEach | game.js:798-827 | entry k after the aura is entry k scorched |
| Enemies.ScorchNumber | game.js:808-822 | exactly one number for a touching enemy with health left and none otherwise; its value is the damage dealt, 10 or the health that was left, shown at the contact point 20 higher, as enemy damage |
| Enemies.ScorchSpark | game.js:823-826 | five particles for a touching enemy, none otherwise |
| Enemies.ScorchNumbers | game.js:798-827 | at most one number per enemy; ScorchNumbersShown gives the count and every entry |
| Enemies.ContactPoint | game.js:820-821 | no contract of its own: the point halfway between the player's centre and the enemy's; ScorchNumber places the number there |
| Enemies.Burning | game.js:803-822 | the enemies the aura damages, in list order: each touches the player and has health; every such enemy is among them |
| Enemies.ScorchNumbersBurning | game.js:798-827 | the aura's numbers are those of the damaged enemies alone, by induction |
| Enemies.BurningNumbers | game.js:798-827 | a list of damaged enemies shows one number each, in reverse list order, by induction |
| Enemies.ScorchNumbersShown | game.js:798-827 | the aura shows as many numbers as enemies it damages, each such enemy exactly its ScorchNumber |
| Enemies.ScorchSparks | game.js:798-827 | five particles per touching enemy |
| Enemies.Touching | game.js:803-806 | no more enemies touch than there are |
| Enemies.ScorchFacts | game.js:795-828 | the aura shows only enemy damage, each number in (0, 10]; it throws only visual particles; no enemy touches exactly when none is counted |
| Enemies.ScorchNumbersRange | game.js:808-822 | every number of the aura is enemy damage in (0, 10] |
| Enemies.ContactSplat | game.js:831-859 | five visual particles at the contact point |
| Sweep.HitEffect | game.js:1112-1135 | six visual particles where the enemy shot hit |
| Sweep.EnemyHit | game.js:945-951 | a hit names an enemy of the list |
| Sweep.HitsPlayer | game.js:1031-1039 | no contract of its own: a damaging enemy shot overlaps a player who is not invulnerable; VisitFacts and TurnKept use it |
| Sweep.Strike | game.js:873-884 | no contract of its own: the struck enemy replaced and its damage shown at the projectile; VisitFacts states what it changes |
| Sweep.Wound | game.js:1042-1046 | no contract of its own: Hurt of 5 damage, the number above the player, invulnerable from now, the hit effect; VisitFacts states what it changes |
| Sweep.Settle | game.js:1011-1021 | no contract of its own: a surface hit splashes and removes, then the kind's own last test; VisitKept and VisitFacts state its effect |
| Sweep.SettleEnemyShot | game.js:977-990 | no contract of its own: a surface hit splashes twice and removes, leaving the view removes; VisitKept and VisitFacts state its effect |
| Sweep.Visit | game.js:937-1022 | no contract of its own: the three kinds' hit and removal tests; VisitKept and VisitFacts state what it does |
| Sweep.Turn | game.js:922-1022 | no contract of its own: the off-screen drop of a visual particle, then the visit of the moved entry; TurnKept and TurnFacts state what it does |
| Sweep.SweepAll | game.js:922-1023 | no contract of its own: the pass from the end of the list; SweepFacts, QuietPass and KeptSurvive state what it does, and Game.Game.SweepProjectiles is proved against it |
| Sweep.VisitKept | game.js:937-1022 | a moved projectile is kept in front of the survivors exactly when no removal test and no hit applies |
| Sweep.VisitFacts | game.js:937-1022 | particles are only appended and all visual; only the enemy the hit test picks is struck; at most one number is added; the player is hurt only when not invulnerable |
| Sweep.TurnKept | game.js:922-1022 | an entry's turn keeps it moved, in front, exactly when no removal test and no hit applies |
| Sweep.TurnFacts | game.js:922-1022 | the visit's facts, or nothing at all for a visual particle culled off screen |
| Sweep.SweepFacts | game.js:922-1023 | no enemy moves; particles are only appended and all visual; at most one number per entry; the player is hit at most once in the pass |
| Sweep.Unremoved | game.js:922-1023 | the reference list is never longer than the list |
| Sweep.UnremovedFrom | game.js:922-1023 | every entry of the reference is a moved entry that no removal test removes |
| Sweep.QuietPass | game.js:922-1023 | with no enemies and an invulnerable player, the pass keeps exactly the moved entries no removal test removes, in order |
| Sweep.KeptSuffix | game.js:922-1023 | what the pass starts with stays at the end of its kept list |
| Sweep.KeptSurvive | game.js:922-1023 | what the pass keeps is an in-order subsequence of the moved entries no removal test removes |
| Sweep.KeptGrows | game.js:922-1023 | one more entry leaves the kept list alone or puts its survivor in front |
| Sweep.HealthOnlyDrops | game.js:862-896 | with non-negative damage, enemy health only drops during the pass, never below 0 |
| World.LevelPlatforms | game.js:331-347 | the level has thirteen platforms |
| World.PlatformExtents | game.js:350-367 | the leftmost edge and rightmost end, each starting from 0, are bounds met by some platform |
| World.LevelExtents | game.js:350-371 | the level's extents are -450 and 2900, so the boundaries become -550 and 3100 |
| World.IsPositionOverlapping | game.js:469-483 | a spot overlaps exactly when it comes within the 20 buffer of some placed enemy |
| World.ClearSpots | game.js:425-428 | the filter keeps exactly the spots that overlap no placed enemy |
| World.PlatformSpots | game.js:414-423 | spots only on platforms wide enough, each with the whole enemy on the platform's top |
| World.Candidates | game.js:382-423 | the ground spot comes first, then the platform spots, each on the ground line or a platform top |
| World.PickIndex | game.js:436 | the random pick is a valid index |
| World.Spawned | game.js:449-464 | a fresh enemy at the spot: full health, unhurt, frame in its cycle, facing right, with a staggered first shot |
| World.ClearMeansApart | game.js:469-483 | keeping clear of a placed enemy means being at least 70 away from it on some axis, and conversely |
| World.PlaceSlot | game.js:390-464 | a slot adds exactly one enemy when some candidate is clear and none otherwise, keeping the enemies placed before it in front |
| World.NothingPlacedAllClear | game.js:395-431 | with no enemy placed yet, some candidate of the slot is clear |
| World.SlotKeepsPlacement | game.js:423-464 | a slot's newcomer is fresh, standing on the ground or a platform top, and apart from every enemy placed before it |
| World.Placed | game.js:389-465 | the first n slots place at most n enemies, and at least one when n is at least 1 |
| World.PlacedStep | game.js:389-465 | one more slot places what the earlier slots do, then that slot's enemy if any |
| World.PlacedApart | game.js:389-465 | whatever the draws, the slots' enemies are fresh, standing and pairwise apart |
| Game.KitOf | game.js:71-93 | every hero has exactly one attack on the action key; the aura comes with the splat; hero1 shoots and hero3 charges |
| Game.Triggered | game.js:533-549 | the shot goes off exactly with space held, the hero shooting and its cooldown passed; the splat exactly with space held, the hero splatting, no shot this frame and 800 ms passed; never both |
| Game.TriggerSpacing | game.js:533-549 | after an attack goes off, nothing goes off again within the cooldown of each attack the hero has |
| Game.ShootCooldownOf | game.js:314-319 | the shot cooldown is 350 ms for hero1 and 500 ms for the others |
| Game.Player.constructor | game.js:6-44 | the player's starting fields |
| Game.Player.Reset | game.js:1962-1975 | full health and lives, back at the start, no charge, barrage, aura or invulnerability |
| Game.Game.constructor | game.js:2-68 | the starting state is valid with empty lists and the default boundaries |
| Game.Game.SelectCharacter | game.js:307-327 | the hero's kit and cooldown, the level and its boundaries, and the enemies the eight slots place (Placed), at least one, fresh, standing and pairwise apart |
| Game.Game.Equip | game.js:307-319 | the hero's kit and cooldown |
| Game.Game.GeneratePlatforms | game.js:330-372 | the level's platforms, with boundaries 100 left and 200 right of their extents |
| Game.Game.GenerateEnemies | game.js:375-466 | the level's platforms, then the enemies the eight slots place (Placed): at least one and at most eight, fresh, each on the ground or a platform top, pairwise apart |
| Game.Game.PlaceEnemies | game.js:386-465 | the slot loop leaves exactly the enemies Placed gives for the eight slots, fresh, standing and pairwise apart |
| Game.Game.Restart | game.js:1959-1982 | a valid new round: full health and lives, the player and camera back at the start, abilities reset, lists cleared, and the enemies the eight slots place (Placed), at least one; the kit is outside its modifies clause, so it is kept |
| Game.Game.Frame | game.js:486-504 | a game-over frame changes nothing; otherwise one update |
| Game.Game.Update | game.js:506-608 | the frame keeps the state valid; no dead enemy and no expired number remain; either no enemy shot's damage is taken and the invulnerability flag stays set exactly while at most 1000 ms have passed since the last hit, or the player was not invulnerable, takes one enemy shot's damage and the window opens now |
| Game.Game.UpdatePlayer | game.js:508-590 | the player's part of the frame keeps the state valid; the new position and facing are Walk of the old ones; the new height, speed and jump flag are Fallen of Jumped of the old ones; the camera is Follow of its old position |
| Game.Game.Steer | game.js:508-531 | the new position and facing are Walk of the old ones; the up key starts a jump at the jump force exactly when no jump is under way (Jumped) |
| Game.Game.Attack | game.js:534-559 | the attacks keep the state valid |
| Game.Game.Fire | game.js:533-549 | a shot (a charged one during a barrage) is appended exactly when space is held, the hero shoots and its cooldown has passed; otherwise a splat exactly when space is held, the hero splats and 800 ms have passed; the shot clock is set to now exactly when one of them goes off (Triggered) |
| Game.Game.ChargeAttack | game.js:551-554 | the state stays valid; the charge fields become ChargeStep's and its shot, if any, is appended |
| Game.Game.Aura | game.js:556-559 | the state stays valid; the aura fields become AuraStep's; while the aura is on, every touching enemy is scorched with its numbers and particles, and otherwise nothing else changes |
| Game.Game.Fall | game.js:560-573 | the new height, speed and jump flag are Fallen of the old ones: gravity, then landing on the first platform that catches the player, then the ground snap |
| Game.Game.UpdateWorld | game.js:592-607 | the world's part of the frame keeps the state valid and the facts of Update about damage, invulnerability, enemies and numbers; the new enemies are Upkeep of the pass's enemies, the projectiles are the pass's survivors and particles followed by the Volley shots, and the numbers are AgeNumbers of the pass's numbers (Worked) |
| Game.Game.Tidy | game.js:595-607 | the state stays valid and the vitals unchanged; the enemies become Upkeep of the old list, the Volley shots are appended, and the numbers become AgeNumbers of the old ones, so no dead enemy and no expired number remain; the invulnerability flag is InvulnerableAfter of the old one: it clears exactly once more than 1000 ms have passed since the last hit |
| Game.Game.ProjectileStep | game.js:592-593 | the lists and player state are the pass over the culled list; the state stays valid; either damage and invulnerability are as before, or the player was not invulnerable, takes one enemy shot's damage and the window opens now |
| Game.Game.MovePlayer | game.js:508-525 | the new position and facing are Walk of the old ones |
| Game.Game.FollowCamera | game.js:575-590 | the camera is Follow of its old position |
| Game.Game.CheckPlatformCollisions | game.js:1686-1718 | a rising player is unchanged; a falling one is put on the first platform it lands on, or unchanged |
| Game.Game.ShootInk | game.js:713-734 | one shot appended: a plain charged shot during a barrage, else an ink shot |
| Game.Game.ShootChargedInk | game.js:695-710 | one charged shot appended |
| Game.Game.CreateInkSplat | game.js:737-768 | the ink splat appended |
| Game.Game.Emit | game.js:748-767 | the particle push loop: n copies of the particle appended |
| Game.Game.HandleChargeAttack | game.js:611-692 | the new charge fields are ChargeStep's, and its shot, if any, is appended |
| Game.Game.HandleContactDamage | game.js:771-792 | the aura fields are AuraStep's; while active every touching enemy is scorched with its numbers and particles; otherwise nothing else changes |
| Game.Game.CheckContactDamage | game.js:795-828 | every touching enemy is scorched in place, with its numbers and particles appended in walk order |
| Game.Game.ScorchEnemy | game.js:801-826 | the touching enemy at the index is scorched, with its number and particles |
| Game.Game.CreateContactDamageSplat | game.js:831-859 | five visual particles appended at the contact point |
| Game.Game.CreateDamageNumber | game.js:1092-1109 | NumberFor's number, if any, appended |
| Game.Game.ShowGameOver | game.js:1953-1956 | the game is over |
| Game.Game.ApplyDamageToPlayer | game.js:1055-1089 | the vitals are Hurt's; the window opens now; the number is shown above the player |
| Game.Game.CheckPlayerProjectileCollision | game.js:1027-1052 | a hit exactly when not invulnerable and overlapping; a hit applies 5 damage and six particles; a miss changes nothing |
| Game.Game.CreatePlayerHitEffect | game.js:1112-1135 | six visual particles appended |
| Game.Game.UpdateDamageNumbers | game.js:1783-1799 | the list becomes AgeNumbers of the old list |
| Game.Game.UpdateEnemies | game.js:1138-1186 | the list becomes Upkeep of the old list and the Volley shots are appended |
| Game.Game.EnemyShootInk | game.js:1189-1224 | the enemy's shot appended |
| Game.Game.CreateProjectileSplashEffect | game.js:1755-1780 | the splash appended |
| Game.Game.CheckProjectilePlatformCollision | game.js:1721-1752 | a hit exactly on a surface hit, with its splash appended |
| Game.Game.CheckProjectileCollisions | game.js:862-896 | a hit exactly when HitIndex finds an enemy; that enemy is struck and the damage dealt is shown; a miss changes nothing |
| Game.Game.ProjectileTurn | game.js:923-1022 | one entry's turn in place mirrors Turn |
| Game.Game.PlayerSideVisit | game.js:937-1022 | a player-side projectile's visit in place mirrors Visit |
| Game.Game.LandPlayerSide | game.js:953-1021 | landing in place mirrors Settle for a splat or a shot |
| Game.Game.EnemyShotVisit | game.js:963-990 | an enemy shot's visit in place mirrors Visit |
| Game.Game.LandSplat | game.js:953-962 | a splat particle's landing mirrors Settle with old age as the last test |
| Game.Game.LandShot | game.js:1011-1021 | a player shot's landing mirrors Settle with leaving the view as the last test |
| Game.Game.LandEnemyShot | game.js:977-990 | an enemy shot's landing mirrors SettleEnemyShot, with its double splash |
| Game.Game.UpdateProjectiles | game.js:899-1024 | the new lists and player state are the pass over the culled list |
| Game.Game.CullProjectiles | game.js:901-920 | the list becomes Cull of the old list |
| Game.Game.SweepProjectiles | game.js:922-1023 | the new lists and player state are the pass over the list |

## Left out

- Rendering, the DOM screens, image loading, key listeners and the animation-frame scheduling are not modelled. The key state arrives as a `Keys` value, and `Frame` stands for one call of the game loop.
- The clock is one reading `now` per frame, given by the caller. The source reads `Date.now()` several times per frame, and those readings can differ by a millisecond or so.
- The model assumes the clock never goes back: `Game.Game` keeps the last reading in a ghost field `clock`, every frame requires `clock <= now`, and `Valid` requires `chargeStartTime <= clock`. With a reading earlier than the charge's start, the source's charge level at game.js:651 would be negative; the model does not cover that case.
- Random draws in particle records are fixed: every `Math.random()` there is taken as 0. Sizes, speeds and lifespans are then the low end of their ranges, and a splat particle's start age, −5 times the draw, is 0, the high end of (−5, 0]. Angles are fixed at 0, which for the splat particle is the middle of its −45° to 45° range rather than its draw-0 end. The damage-number horizontal drift, `velocityX`, is left out. Enemy placement takes its draws as `SpawnDraw` parameters in [0, 1), so a draw of exactly 1.0 is excluded.
- Enemy aiming takes `atan2`, `cos` and `sin` as the parameter `aim`, and the projectile keeps no `angle` field. Numbers are mathematical reals, not IEEE doubles.
- Fields that affect nothing the model tracks are left out: `damageTaken`, `tentaclePhase`, sprites, colours, `selectedCharacter` and `currentScreen`.
- When a player shot hits an enemy, the source sets its `canDamage` to false. The shot is removed at once, so the model does not record it.
- The capacity limit sorts the visual particles by age and pops from the end. The model removes the youngest one by one, the latest in the list among equal ages. This gives the same removals as the source's stable sort.
- The comment at game.js:902 says the limit removes the oldest particles first. The code sorts by descending age and pops, so it removes the youngest, and the model follows the code.
- The pass removes visual particles, player shots and enemy shots once they are beyond the camera margin, but a damaging splat particle only on a hit, a surface hit or old age, wherever it is. The model follows the code.
- An enemy shot that meets the player during the invulnerability window is not consumed: the player hit test returns false at game.js:1031-1033, so the shot flies on through the player. The model follows the code.
- An enemy shot that hits a surface throws its splash twice: once in the platform test and once in the pass. The model keeps both, following the code.
- The source's single `update()` is split into `UpdatePlayer`, `Steer`, `Attack`, `Fall`, `UpdateWorld`, `Tidy` and `ProjectileStep`. They run in the source's order.
- Game.Game.Update: states validity, the clock and the damage, invulnerability, enemy and number facts of `UpdateWorld`. It does not restate the movement that `UpdatePlayer` states (`Travelled`) or the new lists that `UpdateWorld` states (`Worked`): composing those over both calls exceeds the solver budget. `UpdateWorld` modifies none of the fields `Travelled` reads, and `Worked` is stated on the state `UpdatePlayer` leaves.
- Game.Game.Frame: promises what `Update` promises, and nothing changes once the game is over. It does not restate the movement or the lists either, for the same reason.
- Game.Game.UpdatePlayer: states validity and the movement and camera (`Travelled`). It does not restate the attacks' effects on the lists and the charge and aura fields; `Fire`, `ChargeAttack` and `Aura` state those and are called in that order by `Attack`.
- `Game.Game.Attack` promises only that the state stays valid. Its effects are stated by the three members it calls in order: `Fire`, `ChargeAttack` and `Aura`.
- `Game.Game.Restart` does not model navigation back to the game screen or the restart of the loop.
