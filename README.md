# Tab selection and dialogue sequencing, modelled in Dafny

This project models the two stateful UI controllers of a small Unity game:

- **The tab manager** (`tabs.dfy`, module `Tabs`). A tab set has N content
  panels, each active or inactive, and a row of tab buttons. The manager
  records the tab it last showed in `activeTabIndex`, which starts at -1
  ("none"). `ShowTab(index)` ignores an index outside the panels. For a valid
  index it hides the recorded panel, shows the requested one, moves the
  selection indicator onto that tab's button and records the index. `Start`
  shows the default tab and binds button `i` to `ShowTab(i)`.
  The class `TabManager` keeps the panels' active flags in an `array<bool>`
  that `ShowTab` updates in place. The indicator's position is the index of
  the button it sits on. The pure function `Select` on the value `TabSet`
  specifies each call, and the lemmas about `Select` state what the
  controller promises. `ShowTab` hides only the panel it recorded. A panel
  that the scene leaves active, and that the manager never recorded, stays
  active next to the requested one (`StrayPanelStaysShown`). This is how the
  code itself behaves, so "exactly one panel is active" holds only when
  every active panel is the recorded one (`ExactlyOneShown`).
- **The dialogue manager** (`dialogue.dfy`, module `Dialogue`). A
  conversation is a sequence of `Message(actorId, message)` lines. It comes
  with a sequence of `Actor(name, sprite, sound)` records. `OpenDialogue`
  loads a conversation, sets the cursor to 0, raises the active flag and
  displays the first line. Displaying a line writes its text and its
  speaker's name and sprite into the box's widgets. It also requests the
  speaker's voice clip if one is assigned, and then the box's chime if the
  box has one. `NextMessage` moves the cursor on by one. It displays the line
  there if there is one; otherwise it ends the conversation by clearing the
  active flag. The per-frame `Update` calls `NextMessage` only when the key
  went down and the conversation is running.
  The class `DialogueManager` holds these as fields that its methods
  reassign. Sound playback is a log of requested `Sound`s, and the key press
  is a boolean parameter. Each method is specified by a pure function on
  the value `Session` (`Open`, `Display`, `Next`, `Step`); the lemmas about
  these functions state the conversation's behaviour.

The source indexes its arrays without checks in three places: the button
array in `ShowTab`, and the message and actor arrays in `DisplayMessage`.
In the source each of these throws an exception on a bad index. The
exception aborts the current call part-way, and the game keeps running.
The model makes each of them a precondition (`CanShow`, `Displayable`,
`CanAdvance`), so it describes only calls that do not throw. What the
excluded calls leave behind is listed under "Left out".

## Model

| member | source | states |
|---|---|---|
| Tabs.Select | Assets/Scripts/TabManager.cs:27-53 | ShowTab keeps the recorded tab within [-1, panel count), keeps the panel and button counts, and keeps "every active panel is the recorded one" |
| Tabs.SelectAll | Assets/Scripts/TabManager.cs:11-53 | across any sequence of ShowTab calls the recorded tab stays within [-1, panel count) and consistency with the panels is kept |
| Tabs.RejectsOutOfRange | Assets/Scripts/TabManager.cs:30-34 | an index below 0 or at or above the panel count leaves every panel, the recorded tab and the indicator unchanged |
| Tabs.ShowsRequested | Assets/Scripts/TabManager.cs:44-52 | after a valid ShowTab(i) panel i is active, the recorded tab is i and the indicator sits on button i (which must exist) |
| Tabs.HidesPrevious | Assets/Scripts/TabManager.cs:37-41 | after a valid ShowTab(i) the previously recorded panel p, if p >= 0 and p != i, is inactive |
| Tabs.OnlyTwoPanelsChange | Assets/Scripts/TabManager.cs:36-44 | a ShowTab changes no panel other than the previously recorded one and the requested one |
| Tabs.ExactlyOneShown | Assets/Scripts/TabManager.cs:37-52 | if every active panel was the recorded one, then after a valid ShowTab(i) panel k is active exactly when k = i |
| Tabs.StrayPanelStaysShown | Assets/Scripts/TabManager.cs:11-44 | a panel left active by the scene and never recorded is not hidden by ShowTab, so ExactlyOneShown needs its precondition |
| Tabs.Idempotent | Assets/Scripts/TabManager.cs:27-53 | ShowTab(i) twice gives the same state as ShowTab(i) once, for every i |
| Tabs.RunStaysInRange | Assets/Scripts/TabManager.cs:11-53 | from the initial -1, any sequence of ShowTab calls keeps the recorded tab in [-1, panel count); with every panel initially hidden, no two panels are ever shown |
| Tabs.TabManager.constructor | Assets/Scripts/TabManager.cs:6-11 | a fresh manager records no tab (-1) and has no button bound yet |
| Tabs.TabManager.ShowTab | Assets/Scripts/TabManager.cs:27-53 | the panels array, recorded tab and indicator become exactly Select of the old state; the bindings are unchanged |
| Tabs.TabManager.Start | Assets/Scripts/TabManager.cs:13-24 | shows the default tab, then binds each button b to ShowTab(b), for every button |
| Tabs.TabManager.Click | Assets/Scripts/TabManager.cs:19-23 | a click on button b performs ShowTab with the index bound to b |
| Dialogue.Shown | Assets/Scripts/DialogueManager.cs:31-36 | the screen for message i carries that message's text and the name and sprite of the actor its actorId names |
| Dialogue.Requested | Assets/Scripts/DialogueManager.cs:39-56 | one display requests the actor's clip exactly when it has one, first and once, then the chime exactly when the box has one, once; nothing else |
| Dialogue.Display | Assets/Scripts/DialogueManager.cs:30-58 | DisplayMessage leaves the conversation, cursor, active flag and chime setting unchanged, and only appends to the sounds already requested |
| Dialogue.Open | Assets/Scripts/DialogueManager.cs:20-26 | OpenDialogue stores both arrays, sets the cursor to 0, raises the active flag and shows message 0; it keeps the chime setting and the earlier sound log, and appends message 0's actor clip (if any) and then the chime (if the box has one) |
| Dialogue.Next | Assets/Scripts/DialogueManager.cs:60-69 | NextMessage raises the cursor by exactly one, keeps the conversation, and afterwards is active exactly when it was active and the new cursor is below the message count |
| Dialogue.Step | Assets/Scripts/DialogueManager.cs:94-99 | a frame moves the cursor only when the key went down and the conversation is active, and then by one; any other frame leaves the whole session unchanged |
| Dialogue.Advance | Assets/Scripts/DialogueManager.cs:60-69 | k NextMessage calls raise the cursor by exactly k and keep the loaded conversation |
| Dialogue.Run | Assets/Scripts/DialogueManager.cs:94-99 | any sequence of frames keeps the cursor in range while active and never moves the cursor backwards |
| Dialogue.DisplayShowsSpeaker | Assets/Scripts/DialogueManager.cs:30-36 | a display shows the current message's text and the name and sprite of the actor it names |
| Dialogue.DisplaySounds | Assets/Scripts/DialogueManager.cs:39-56 | a display appends to what was requested before: the actor's clip, once and first, exactly when the actor has one, then the chime, once, exactly when the box has one |
| Dialogue.NextDisplays | Assets/Scripts/DialogueManager.cs:61-63 | when the new cursor is below the message count, NextMessage is exactly a display at the new cursor: it shows that message, requests its actor's clip and the chime, and leaves the active flag as it was |
| Dialogue.NextEnds | Assets/Scripts/DialogueManager.cs:64-68 | when the new cursor reaches the message count, the conversation ends and nothing is displayed or requested |
| Dialogue.ConversationRuns | Assets/Scripts/DialogueManager.cs:20-69 | after OpenDialogue with N messages, the first k < N NextMessage calls keep it active with cursor k, showing message k |
| Dialogue.ConversationEnds | Assets/Scripts/DialogueManager.cs:20-69 | after OpenDialogue with N messages, the N-th NextMessage call ends it |
| Dialogue.AdvanceStep | Assets/Scripts/DialogueManager.cs:60-69 | k + 1 NextMessage calls are k calls followed by one more |
| Dialogue.InactiveStaysPut | Assets/Scripts/DialogueManager.cs:94-99 | a conversation that is not active is left entirely unchanged by any sequence of frames |
| Dialogue.KeyFramesAdvance | Assets/Scripts/DialogueManager.cs:94-99 | for an active conversation, n frames with the key down, with n no more than the messages left, are n NextMessage calls |
| Dialogue.TwoLines | Assets/Scripts/DialogueManager.cs:20-69 | with lines "Hi" by actor 0 and "Bye" by actor 1: the first display shows actor 0 and "Hi", one NextMessage shows actor 1 and "Bye", a second ends the conversation |
| Dialogue.DialogueManager.constructor | Assets/Scripts/DialogueManager.cs:15-18 | a fresh manager has no conversation loaded, cursor 0 and is inactive |
| Dialogue.DialogueManager.OpenDialogue | Assets/Scripts/DialogueManager.cs:20-28 | the new state is Open of the old one, provided message 0 and its actor exist |
| Dialogue.DialogueManager.DisplayMessage | Assets/Scripts/DialogueManager.cs:30-58 | the widgets and sound log become Display of the old state, provided the current message and its actor exist |
| Dialogue.DialogueManager.NextMessage | Assets/Scripts/DialogueManager.cs:60-69 | the new state is Next of the old one, provided a conversation is loaded and the next message's actor exists |
| Dialogue.DialogueManager.Update | Assets/Scripts/DialogueManager.cs:94-99 | the new state is Step of the old one for the given key state |

## Left out

- Logging (`Debug.Log`, `Debug.LogError`) is not modelled: it has no effect on state.
- The background box's scale tweens (`LeanScale`) on open and on end, and the text colour fade (`AnimateTextColor`, `UpdateTextColor`), are not modelled. They are floating-point animations run by a tweening library. `DialogueManager.Start`, which only zeroes the box's scale, is left out for the same reason.
- Audio playback (`PlayOneShot`, `Play`) is not modelled. Only which sound was requested is recorded, in `soundLog`. The model assumes the `AudioSource` component that `GetComponent` looks up exists.
- Keyboard polling is not modelled: `Input.GetKeyDown(KeyCode.Space)` becomes the `keyDown` parameter of `Update`.
- Button and indicator world positions (`Vector2`) are not modelled: the indicator's position is the index of the button it sits on.
- The `onClick.AddListener` closures are reduced to `bindings[b]`, the index that button `b`'s listener passes to `ShowTab`. `Start` is run once by the engine; a second call, which would add a second listener per button, is not modelled.
- `isActive` is a static field shared by every dialogue manager. The model makes it a field of the one manager. So another manager clearing it or raising it is not captured. Neither is a new manager that starts with the flag still raised from an earlier conversation: line 18 of `DialogueManager.cs` initialises the flag once, not per manager.
- Message and actor arrays are modelled as sequences. Their elements are never changed by the manager, and a caller changing them after `OpenDialogue` is not modelled. The declarations of `Message` and `Actor` are not part of this model; their fields are taken from their use in `DialogueManager.cs`. Sprite and clip handles are integers, and an unassigned clip is `None`.
- `currentMessages` is null until `OpenDialogue` runs. The model replaces this with the flag `loaded`. `NextMessage` requires it, because the source would dereference null.
- `ShowTab` with an index that names a panel but no button is not modelled: `CanShow` excludes it. In the source, lines 39 and 44 of `TabManager.cs` have already hidden the recorded panel and shown the requested one when line 48 throws. `activeTabIndex` then keeps its old value, so the shown panel is untracked, as in `StrayPanelStaysShown`. A click cannot cause this, because button `b` is bound to index `b`. Only `defaultTab` or an outside caller can. When `defaultTab` is such an index, the throw also aborts `Start` before its listener loop (lines 19-23), so no button gets a listener at all.
- `OpenDialogue` on an empty conversation is not modelled: `Displayable` excludes it. In the source, `isActive` is already raised (line 24 of `DialogueManager.cs`) when line 31 throws. The box then stays active with nothing new shown, until the next key press ends the conversation.
- A message whose `actorId` names no actor is not modelled: `Displayable` and `CanAdvance` exclude it. In the source, line 32 has already written that message's text when line 34 throws. The box then shows the new text next to the previous speaker's name and sprite.
- The chime setting is fixed for the manager's lifetime (`chimeReady` is a `const`). The source re-reads `messageSound` and its clip on every display (line 53), so a change made between displays is not captured.
- `MainMenu.cs` (scene loading and quitting) is not modelled: it only calls into the engine.
