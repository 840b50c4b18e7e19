# Sign registry of the Bukkit openHAB bridge

This project models the sign registry kept by `BukkitServerListener`, the block listener of a
Bukkit plugin that mirrors in-game signs wired to redstone to openHAB. The listener keeps a map
from block locations to tracked signs. Three block event handlers change the map:

- breaking a block removes the sign standing there, or else switches off a sign standing on it;
- a redstone change registers or updates the sign on top of the powered block;
- writing a sign's text (re)declares that sign, switched off.

Every change to the registry is published except one, described below: a sign found by a
redstone event with current 0 is stored silently. A publish pushes the live view of the map's
values into the signs subject.
`getSigns` reads that subject.

Layout:

- `sign_types.dfy` (module `SignTypes`) holds the values: `Loc`, which is a world name plus
  integer block coordinates; `Sign`, which has name, state, location and control block; the
  non-empty sign text `Lines`; and the world query `World`.
- `reconciler.dfy` (module `Reconciler`) holds the rule of each handler as a function from the
  old map to the new map and a publish flag (`Break`, `Redstone`, `SignChange`). It also holds
  the registry invariant `WellFormed`.
- `runs.dfy` (module `Runs`) holds the listener's whole state: the map, what the signs subject
  holds, and the number of publishes. It defines one step per event and runs of event sequences,
  with the lemmas over them: the invariant is kept, events are local, repeats are debounced, and
  `getSigns` before and after the first publish.
- `listener.dfy` (module `Listener`) holds the class `BukkitServerListener`. Its `ohSigns` map
  field is changed in place by the handler methods. Each handler is proved to take the state to
  exactly `Step` of the old state.

Points where the code behaves differently from what one might expect:

- One might expect every registry change to be published. A sign found by a redstone event
  with current 0 is stored without a publish
  (src/main/java/se/treehouse/minecraft/BukkitServerListener.java:78-79, :84-86);
  `QuietHandle` proves this is the only such case.
- `updateSigns` pushes `ohSigns.values()`, a live view, not a copy. After the first publish,
  the subject's value therefore shows later changes, including unpublished ones, and the
  model's `Visible` is the current map's values.
- The registry is a `HashMap`, so the published collection has no order. It is modelled as a
  set. `ValuesCount` shows that no sign is lost by this, because distinct entries hold distinct
  signs.

## Model

| member | source | states |
|---|---|---|
| `Reconciler.Break` | src/main/java/se/treehouse/minecraft/BukkitServerListener.java:48-59 | Breaking a tracked sign removes exactly that entry and publishes. Breaking an untracked block under a tracked sign keeps that sign, switches it off and publishes even when it was already off. Otherwise nothing changes and nothing is published. No other entry changes, and removing a sign never touches the sign above it. The registry invariant is kept. |
| `Reconciler.Redstone` | src/main/java/se/treehouse/minecraft/BukkitServerListener.java:68-92 | A tracked sign above the block takes state `newCurrent > 0` and is published iff its state flips; without a publish nothing changed. An untracked sign the world shows above is added with its first line as name, the block as control and state `newCurrent > 0`, and is published only when `newCurrent > 0`. With no sign above, nothing changes and nothing is published. Entries elsewhere are untouched; the invariant is kept. |
| `Reconciler.SignChange` | src/main/java/se/treehouse/minecraft/BukkitServerListener.java:101-111 | The entry at the written block becomes a sign named by the first line, switched off, with the block below as control. It replaces any earlier entry there. All other entries are untouched, the invariant is kept, and the handler always publishes. |
| `Reconciler.RedstoneRepeated` | src/main/java/se/treehouse/minecraft/BukkitServerListener.java:84-91 | Handling the same redstone event a second time publishes nothing and leaves the map unchanged. |
| `Reconciler.SignChangeRepeated` | src/main/java/se/treehouse/minecraft/BukkitServerListener.java:104-110 | Handling the same sign text edit twice leaves the same map as handling it once, and publishes again. |
| `Reconciler.ValuesCount` | src/main/java/se/treehouse/minecraft/BukkitServerListener.java:143-145 | In a well-formed registry the collection of values has exactly one sign per tracked location. |
| `Runs.Handle` | src/main/java/se/treehouse/minecraft/BukkitServerListener.java:47-111 | Dispatches each event to its handler. Entries at positions the event does not name keep their presence and value, and the registry invariant is kept. |
| `Runs.Visible` | src/main/java/se/treehouse/minecraft/BukkitServerListener.java:175-177 | `getSigns` is empty while the subject holds its initial list. Once the live view has been pushed, and the registry is well formed, a sign is visible exactly when it is the one stored under its own location. |
| `Runs.StepConsistent` | src/main/java/se/treehouse/minecraft/BukkitServerListener.java:47-145 | One handled event keeps the registry invariant. The subject holds the live view exactly when at least one publish happened. |
| `Runs.RunConsistent` | src/main/java/se/treehouse/minecraft/BukkitServerListener.java:47-145 | Every sequence of events keeps that consistency. |
| `Runs.RunLocality` | src/main/java/se/treehouse/minecraft/BukkitServerListener.java:47-111 | Events that never name a position leave that position's entry as it was: absent, or present with the same sign and state. |
| `Runs.QuietHandle` | src/main/java/se/treehouse/minecraft/BukkitServerListener.java:48-111 | A handled event that does not publish leaves the map unchanged, except for a redstone event with current at most 0 under an untracked sign the world shows, which stores that sign silently. |
| `Runs.GetSignsAfterRun` | src/main/java/se/treehouse/minecraft/BukkitServerListener.java:39-177 | From a fresh listener, `getSigns` returns nothing until the first publish. From then on it returns all tracked signs, one per tracked location, including changes made since the last publish. |
| `Runs.RedstoneStepRepeated` | src/main/java/se/treehouse/minecraft/BukkitServerListener.java:84-91 | Repeating a redstone event leaves the whole listener state exactly as after the first event, so it adds zero publishes. |
| `Runs.SignChangeStepRepeated` | src/main/java/se/treehouse/minecraft/BukkitServerListener.java:108-110 | Repeating a sign text edit leaves the same map and publishes exactly once more. |
| `Runs.DoorScenario` | src/main/java/se/treehouse/minecraft/BukkitServerListener.java:48-111 | A concrete history for a sign "Door" at y = 64 over a control block at y = 63. Writing it gives one sign, off, and one publish. Powering it with 15 switches it on and publishes. Powering it again changes nothing. Breaking the control block switches it off and publishes. Breaking the sign empties `getSigns` and publishes. |
| `Listener.BukkitServerListener.constructor` | src/main/java/se/treehouse/minecraft/BukkitServerListener.java:30-39 | The listener starts with an empty map, the subject holding its initial empty list, and no publishes. |
| `Listener.BukkitServerListener.BlockDestroyEvent` | src/main/java/se/treehouse/minecraft/BukkitServerListener.java:48-59 | The in-place handler leaves the listener in exactly the state `Break` prescribes, publishing once when `Break` publishes. It keeps the invariant. |
| `Listener.BukkitServerListener.BlockRedstoneEvent` | src/main/java/se/treehouse/minecraft/BukkitServerListener.java:68-92 | The in-place handler, querying the world one block up, leaves the listener in exactly the state `Redstone` prescribes. It keeps the invariant. |
| `Listener.BukkitServerListener.OnSignChange` | src/main/java/se/treehouse/minecraft/BukkitServerListener.java:101-111 | The in-place handler leaves the listener in exactly the state `SignChange` prescribes. It keeps the invariant. |
| `Listener.BukkitServerListener.UpdateSigns` | src/main/java/se/treehouse/minecraft/BukkitServerListener.java:143-145 | Publishing pushes the live values view into the subject and counts one publish. The map is not changed. |
| `Listener.BukkitServerListener.GetSigns` | src/main/java/se/treehouse/minecraft/BukkitServerListener.java:175-177 | Returns exactly `Visible` of the listener's state, so the lemmas about `Visible` apply to it: nothing before the first publish, afterwards the map's values, one per entry, each stored under its own location. |

## Left out

- Listener.BukkitServerListener.GetSigns: returns the contents of the values view at call time, not the live collection itself; a result the caller keeps does not follow later `put`, `remove` or `setState` on the registry, as the returned Java view would.
- The server heartbeat stream `serverRx` (a 15-second interval timer) and the players stream `playersRx` (a subject merged with a 5-second timer) are left out. They are timers and a reactive library, not registry logic.
- The subscription side of the signs subject (`getSignsRx`, replay to new subscribers) is left out. Publishing is modelled only as the value the subject holds plus a count of publishes.
- The player join and quit handlers and `updatePlayers` are left out. They only forward the server's online player collection.
- Bukkit world queries (`getBlock().getState()`, the `instanceof Sign` test, `getRelative`) are replaced by the function `World` from a position to the sign lines there, if any. Sign lines are assumed non-empty, since the handlers read the first line.
- `Location`'s floating-point coordinates and the conversion to `LocationData` are left out. `LocationData` is not part of this model. Positions are integer block coordinates compared structurally.
- `OHSign` is not part of this model. It is taken to be a record of name, state, location and control block. A control block is represented by its position.
- Logging through the plugin singleton and the event priority annotations are left out. No behaviour depends on them.
- Concurrent delivery of events is left out. Handlers run one at a time, as the server's main thread calls them.
