# cadenza-shell, modelled in Dafny

cadenza-shell is a Wayland desktop shell written in Rust on GTK 4 and Relm4.
It has a bar of tiles (clock, battery, volume, brightness, network,
Bluetooth, media, weather, tray and notifications), a notification daemon
that implements the Desktop Notifications Specification 1.3 with a center
and popups, a bounded undo/redo command manager, and a system tray built on
the freedesktop StatusNotifierItem protocol.

This project models the decision logic of those parts. It covers:

- how notifications are stored, paired, dismissed, reconciled and sorted;
- the tiles' update handlers and the way they pick icons, texts and classes;
- the services' parsers and state reducers (battery, audio, brightness,
  Bluetooth, network, Hyprland, MPRIS, weather and clock);
- the tray's address parsing and item tables.

Code that changes state in place becomes a Dafny `class` whose methods
state their new state. Each such method is tied to a pure specification
function, and the lemmas are proved about that function. Pure Rust code
becomes functions and lemmas. There is one module per source file, and
the shared pieces are:

- `Wrappers`: `Option` and `Result`;
- `RustText`: the `str` operations the parsers use;
- `FloatValues`: `f64` division;
- `MapOrder`: the arbitrary iteration order of a `HashMap`;
- `CardList`: card lists;
- `CountLabel`: the count labels.

Whatever the shell gets from outside becomes a parameter of the model:

- D-Bus answers;
- file contents;
- command outputs;
- the local time;
- timers.

A timer is a pending token. A message a component sends to itself waits in
a first-in first-out queue.

Some of the names in these sources do not match:

- src/network.rs imports `ConnectivityState` from src/network/types.rs, but
  that file declares the enum as `Connectivity`. The model treats the two as
  the same enum.
- src/services/network.rs repeats the decoders of src/network/types.rs. Both
  are modelled by the members of `NetworkTypes`.

## Model

| member | source | states |
|---|---|---|
| NotificationTypes.UrgencyFromCode | src/notifications/types.rs:35-44 | only the bytes 0, 1 and 2 decode to an urgency; every other byte is rejected |
| NotificationTypes.UrgencyCodeRoundTrip | src/notifications/types.rs:35-44 | Low, Normal and Critical are carried as 0, 1 and 2 and decode back to themselves |
| NotificationTypes.UrgencyBelowTwo | src/notifications/types.rs:35-44 | a code below 2 means exactly "not critical" (the test the popups use for auto-dismiss) |
| NotificationTypes.PairActions | src/notifications/types.rs:5-16 | the pairs are (v[2k], v[2k+1]), identifier then label, and there are ⌊n/2⌋ of them |
| NotificationTypes.FlattenActions | src/notifications/types.rs:9-11 | a pair list is sent as a flat list twice as long |
| NotificationTypes.PairFlattenRoundTrip | src/notifications/types.rs:12-15 | pairing the flattening of any pair list gives that list back |
| NotificationTypes.PairActionsDropsTrailing | src/notifications/types.rs:13-15 | a trailing identifier with no label after it is dropped |
| NotificationDaemon.ExpiryOutput | src/notifications/daemon.rs:103-113 | an expiry timer, when it fires, emits a close of its id with reason 1 |
| NotificationDaemon.CounterAfter | src/notifications/daemon.rs:18 | the process-wide id counter always holds a `u32` |
| NotificationDaemon.CounterAfterNoWrap | src/notifications/daemon.rs:18 | before wrap-around the k-th fresh id is k + 1, so ids start at 1 |
| NotificationDaemon.FreshIdsIncrease | src/notifications/daemon.rs:44-48 | fresh ids start at 1 and strictly increase, hence are pairwise distinct, until `u32::MAX` of them have been given out |
| NotificationDaemon.CounterWrapsToZero | src/notifications/daemon.rs:47 | `fetch_add` wraps: after `u32::MAX` allocations the counter reads 0, the value `replaces_id` uses for "none" |
| NotificationDaemon.BuildNotificationFields | src/notifications/daemon.rs:50-75 | the stored record takes its id, app name, app icon, summary, body, timeout and timestamp from the call; the urgency and desktop entry are the hinted ones, defaulting to Normal and empty; the actions are the flat list read as (identifier, label) pairs, `PairActions` of it |
| NotificationDaemon.Capabilities | src/notifications/daemon.rs:143-155 | nine distinct capabilities, among them "actions", "body" and "persistence" |
| NotificationDaemon.ServerInformation | src/notifications/daemon.rs:157-164 | the daemon claims version 1.3 of the specification |
| NotificationDaemon.NotificationsDaemon.constructor | src/notifications/daemon.rs:184-189 | the store starts empty and the next fresh id is 1 |
| NotificationDaemon.NotificationsDaemon.Notify | src/notifications/daemon.rs:32-116 | a non-zero `replaces_id` is returned as is without touching the counter; otherwise the counter's value is returned and the counter advances, wrapping at `u32::MAX`; the store then holds the built notification under the id, other ids untouched; the worker is sent the store and received messages; an expiry is scheduled iff the timeout is positive |
| NotificationDaemon.NotificationsDaemon.CloseNotification | src/notifications/daemon.rs:118-141 | only the given id is removed (no-op when absent), and the signal and the worker message both carry reason 2 |
| NotificationDaemon.NotificationsDaemon.GetNotifications | src/notifications/daemon.rs:191-193 | returns a copy equal to the store and changes nothing |
| NotificationDaemon.NotificationsDaemon.ClearAll | src/notifications/daemon.rs:195-198 | the store is empty afterwards |
| NotificationDaemon.BuildNotification | src/notifications/daemon.rs:50-75 | specified by BuildNotificationFields: every field comes from the call, the urgency and desktop entry from the hints with Normal and empty as defaults, and the actions paired |
| NotificationWorker.NotificationService.constructor | src/notifications.rs:132-136 | the store starts empty |
| NotificationWorker.NotificationService.Update | src/notifications.rs:139-176 | the new store and the outputs are those the message calls for, read off the store before the message |
| NotificationWorker.StoreInsertsUnderId | src/notifications.rs:157-159 | storing puts the notification under its own id, replacing any entry there, and leaves every other id alone |
| NotificationWorker.StoreIdempotent | src/notifications.rs:157-159 | storing the same notification twice gives the same store as storing it once |
| NotificationWorker.CloseRemovesOnlyId | src/notifications.rs:154-156 | closing removes exactly that id; an unknown id is a no-op |
| NotificationWorker.ClearAllEmpties | src/notifications.rs:148-153 | clearing empties the store and emits `AllCleared` |
| NotificationWorker.GetNotificationsIsSnapshot | src/notifications.rs:141-147 | a snapshot request changes nothing and emits exactly the store |
| NotificationWorker.ActionLeavesStore | src/notifications.rs:160-175 | an action leaves the store alone and is passed on as the `ActionInvoked` signal |
| NotificationWorker.Apply | src/notifications.rs:139-176 | specified by StoreInsertsUnderId, StoreIdempotent, CloseRemovesOnlyId, ClearAllEmpties, GetNotificationsIsSnapshot and ActionLeavesStore: each message's effect on the store |
| NotificationWorker.EffectsOf | src/notifications.rs:139-176 | specified by ClearAllEmpties, GetNotificationsIsSnapshot and ActionLeavesStore: clearing announces it, a snapshot reports the store, an action becomes a bus signal |
| CardList.FirstIndex | src/notifications/fresh.rs:127-135 | the index found holds the id and no earlier card does; there is none exactly when no card holds the id |
| CardList.FindFirstIndex | src/notifications/fresh.rs:128-135 | the search loop, stopping at the first match, finds exactly `FirstIndex` |
| CardList.RemoveAt | src/notifications/fresh.rs:137-139 | `VecDeque::remove(i)` drops element i and shifts the rest up, keeping their order |
| CardList.CountIdZero | src/notifications/fresh.rs:130-135 | no card carries the id exactly when the count of such cards is 0 |
| CardList.RemoveFirstIdCount | src/notifications/fresh.rs:120-140 | a removal takes out exactly one card with the id when there is one, shortening the list by one, and is a no-op for an unknown id |
| CardList.RemoveFirstIdTwice | src/notifications/fresh.rs:141-152 | removing the same id a second time is a no-op exactly when at most one card carried it |
| CardList.RemoveFirstIdKeepsOthers | src/notifications/fresh.rs:120-140 | every card with another id survives a removal and nothing new appears |
| CardList.InsertByTimestamp | src/notifications/center.rs:158 | inserting one card keeps the list a permutation of its input plus the card and keeps it newest first |
| CardList.SortNewestFirst | src/notifications/center.rs:157-158 | the sorted list is a permutation of its input (same length, same multiset) with non-increasing timestamps |
| MapOrder.ValuesAt | src/notifications/center.rs:157 | listing a map's values in a key order gives one value per key, in that order |
| MapOrder.ValuesAtAppend | src/notifications/center.rs:157 | reading one more key appends its value |
| MapOrder.KeyOrderLength | src/tray/status_notifier/watcher.rs:45 | any order that lists each key once is as long as the map |
| MapOrder.CollectKeys | src/tray/status_notifier/watcher.rs:43-46 | iterating the keys yields every key of the map exactly once |
| MapOrder.CollectValues | src/notifications/center.rs:157 | iterating the values yields one value per key, in some order of the keys |
| NotificationCenter.RenderedIsSortedPermutation | src/notifications/center.rs:155-167 | whatever order the map is read in, the rendered list has one card per key, holds every value, is a permutation of the values and is newest first |
| NotificationCenter.NotificationCenter.constructor | src/notifications/center.rs:82-92 | the center starts hidden with an empty mirror and sends the worker `GetNotifications` |
| NotificationCenter.InitialRequestSyncs | src/notifications/center.rs:89-92 | the worker answers the start-up request with its whole store, unchanged, and mirroring that answer makes the center hold exactly that store |
| NotificationCenter.NotificationCenter.Update | src/notifications/center.rs:100-148 | only Toggle changes visibility (flipping it); only a service update changes the mirror; the request sent is a refresh exactly on a toggle that shows the panel, and a clear, close or action request for the other messages |
| NotificationCenter.NotificationCenter.UpdateView | src/notifications/center.rs:150-169 | the window follows `visible`; while visible the cards are the mirror's values newest first, otherwise they stay as they were |
| NotificationCenter.NotificationCenter.ShowCards | src/notifications/center.rs:161-167 | the list box is cleared and ends holding exactly the given cards, in their order |
| NotificationCenter.MirrorReceivedAndClosed | src/notifications/center.rs:120-125 | a received notification is inserted or overwritten by id; a closed one is removed whatever the reason; other ids keep their entries |
| NotificationCenter.Mirror | src/notifications/center.rs:115-135 | specified by MirrorReceivedAndClosed: a received notification is inserted or overwritten by id and a closed one removed whatever the reason, other ids untouched |
| NotificationCenter.Request | src/notifications/center.rs:100-148 | every message but a worker output and a closing toggle sends a request, and only an opening toggle asks for the stored list |
| FreshNotifications.StepLowersWeight | src/notifications/fresh.rs:141-159 | handling a queued message queues messages of smaller total weight, so draining the queue ends |
| FreshNotifications.Drain | src/notifications/fresh.rs:141-159 | draining leaves the message queue empty |
| FreshNotifications.DrainStep | src/notifications/fresh.rs:141-159 | draining a non-empty queue handles its first message and then drains the rest |
| FreshNotifications.NewNotificationEffect | src/notifications/fresh.rs:97-119 | the new card goes on top and the list grows by one with no check on the id; a timer is registered under the id, with a fresh handle, iff the notification is not critical |
| FreshNotifications.AutoDismissEffect | src/notifications/fresh.rs:141-159 | once its queued messages are handled, an auto-dismiss removes the first card with the id twice, reports exactly one dismissal and leaves no timer entry for the id |
| FreshNotifications.DismissEffect | src/notifications/fresh.rs:149-159 | a dismissal removes the first card with the id and emits exactly `NotificationDismissed(id)` |
| FreshNotifications.AutoDismissSingleCard | src/notifications/fresh.rs:141-152 | when at most one card carries the id, the second removal an auto-dismiss causes is a no-op |
| FreshNotifications.ActionEffect | src/notifications/fresh.rs:160-168 | an action is reported as `NotificationActionTriggered(id, action)` and changes nothing |
| FreshNotifications.FreshNotificationsComponent.constructor | src/notifications/fresh.rs:73-78 | the popup starts visible, with no cards and no timers |
| FreshNotifications.FreshNotificationsComponent.Update | src/notifications/fresh.rs:95-170 | the new state and outputs are those of `Handle` on the old state |
| FreshNotifications.FreshNotificationsComponent.FireTimer | src/notifications/fresh.rs:109-115 | a firing timer is no longer pending and queues `AutoDismiss` for its id |
| FreshNotifications.FreshNotificationsComponent.DrainQueue | src/notifications/fresh.rs:141-159 | handling the queued messages one by one ends in the state and outputs of `Drain` |
| FreshNotifications.Handle | src/notifications/fresh.rs:95-168 | specified by NewNotificationEffect, AutoDismissEffect, DismissEffect, AutoDismissSingleCard and ActionEffect: each message's effect on the cards, the timers and the outputs |
| FreshNotifications.Step | src/notifications/fresh.rs:141-159 | specified by StepLowersWeight: handling the first queued message queues messages of smaller total weight |
| NotificationPopupRelm4.Refill | src/notifications/notification_popup_relm4.rs:184-203 | refilling only hands out fresh timer handles, and every id-table entry names a handle whose timer dismisses that id |
| NotificationPopupRelm4.RefillKeys | src/notifications/notification_popup_relm4.rs:184-203 | after a refill the id table holds exactly the ids of the cards below urgency 2 |
| NotificationPopupRelm4.SameCardsSameIds | src/notifications/notification_popup_relm4.rs:180-191 | sorting does not change which ids below urgency 2 are present |
| NotificationPopupRelm4.WeightAppend | src/notifications/notification_popup_relm4.rs:205-236 | the weight of a concatenation is the sum of the weights |
| NotificationPopupRelm4.StepLowersWeight | src/notifications/notification_popup_relm4.rs:205-236 | handling a queued message queues messages of smaller total weight, so the queue drains |
| NotificationPopupRelm4.Drain | src/notifications/notification_popup_relm4.rs:205-236 | draining leaves the queue empty |
| NotificationPopupRelm4.DrainStep | src/notifications/notification_popup_relm4.rs:205-236 | draining a non-empty queue handles its first message and drains the rest |
| NotificationPopupRelm4.VisibilityMessages | src/notifications/notification_popup_relm4.rs:119-124 | Toggle flips `visible` and two toggles restore the state; SetVisible(v) sets it to v; the window is then shown iff v holds and there is a card |
| NotificationPopupRelm4.AddNotificationEffect | src/notifications/notification_popup_relm4.rs:125-147 | the new card goes on top and gets a timer, under a handle no earlier timer used, iff its urgency is below 2 |
| NotificationPopupRelm4.UpdateNotificationsEffect | src/notifications/notification_popup_relm4.rs:169-204 | the cards become the input sorted newest first; every earlier timer is cancelled; the id table holds exactly the ids below urgency 2, each with a timer of its own |
| NotificationPopupRelm4.RemoveNotificationEffect | src/notifications/notification_popup_relm4.rs:148-168 | the first card with the id goes, the others keep their order, and the id leaves the table together with its timer |
| NotificationPopupRelm4.NotificationActionEffect | src/notifications/notification_popup_relm4.rs:224-236 | an action queues the card's removal and reports `DefaultActionTriggered(id)` iff the key is "default", else `NotificationActionTriggered(id, action)` |
| NotificationPopupRelm4.DismissEffect | src/notifications/notification_popup_relm4.rs:213-223 | a dismissal tells the service, reports the dismissal and, once the queue is handled, has removed one card |
| NotificationPopupRelm4.AutoDismissEffect | src/notifications/notification_popup_relm4.rs:205-212 | once its queued messages are handled, an auto-dismiss has removed the first card with the id twice, told the service once and reported one dismissal |
| NotificationPopupRelm4.CheckServiceEffect | src/notifications/notification_popup_relm4.rs:237-249 | a full update is queued only when the service's count differs from the number of cards shown; nothing else changes |
| NotificationPopupRelm4.HandleKeepsTables | src/notifications/notification_popup_relm4.rs:117-251 | every message keeps the handle counter ahead of all handles and each pending table entry pointing at a timer for its own id |
| NotificationPopupRelm4.NotificationPopup.constructor | src/notifications/notification_popup_relm4.rs:86-92 | the popup starts visible with no cards and no timers |
| NotificationPopupRelm4.NotificationPopup.WindowShown | src/notifications/notification_popup_relm4.rs:50-51 | the window is shown iff the popup is visible and has a card |
| NotificationPopupRelm4.NotificationPopup.Update | src/notifications/notification_popup_relm4.rs:117-251 | the new state and effects are those of `Handle` on the old state |
| NotificationPopupRelm4.NotificationPopup.AddCard | src/notifications/notification_popup_relm4.rs:125-147 | the card goes on top and a timer is registered for it unless it is critical, as `Handle` says |
| NotificationPopupRelm4.NotificationPopup.RemoveCard | src/notifications/notification_popup_relm4.rs:148-168 | the id's timer is cancelled and its first card removed, as `Handle` says |
| NotificationPopupRelm4.NotificationPopup.Reload | src/notifications/notification_popup_relm4.rs:169-204 | every timer is cancelled and the cards are rebuilt from the listed notifications, as `Handle` says |
| NotificationPopupRelm4.NotificationPopup.CancelAll | src/notifications/notification_popup_relm4.rs:170-174 | the id table is emptied and the timer of every entry is cancelled |
| NotificationPopupRelm4.NotificationPopup.Refresh | src/notifications/notification_popup_relm4.rs:177-203 | the cards become the sorted list and the timer tables are those `Refill` gives |
| NotificationPopupRelm4.NotificationPopup.FireTimer | src/notifications/notification_popup_relm4.rs:137-143 | a firing timer is no longer pending and queues `AutoDismiss` for its id |
| NotificationPopupRelm4.NotificationPopup.DrainQueue | src/notifications/notification_popup_relm4.rs:205-236 | handling the queued messages one by one ends in the state and effects of `Drain` |
| NotificationPopupRelm4.Handle | src/notifications/notification_popup_relm4.rs:117-251 | specified by VisibilityMessages, AddNotificationEffect, UpdateNotificationsEffect, RemoveNotificationEffect, NotificationActionEffect, DismissEffect, AutoDismissEffect, CheckServiceEffect and HandleKeepsTables: each message's effect on the cards, the timer table and the outputs |
| NotificationPopupRelm4.Step | src/notifications/notification_popup_relm4.rs:205-236 | specified by StepLowersWeight and DrainStep: handling the first queued message lowers the queue's weight, so draining ends |
| CardReconciliation.RemoveValue | src/notifications/notification_center.rs:228 | removing a widget the container does not hold leaves it unchanged, and nothing new appears |
| CardReconciliation.Drop | src/notifications/notification_center.rs:225-235 | the container keeps exactly the cards whose id is not stale, in order, and never grows |
| CardReconciliation.DropAbsent | src/notifications/notification_center.rs:225-235 | marking a card stale that the container does not hold changes nothing |
| CardReconciliation.RemoveValueDrop | src/notifications/notification_center.rs:226-231 | removing the stale cards one at a time equals dropping them all at once |
| CardReconciliation.DropDistinct | src/notifications/notification_center.rs:225-235 | removing cards keeps a container without repeated cards free of repeats |
| CardReconciliation.AddNew | src/notifications/notification_center.rs:237-244 | the map gains exactly the listed ids, old entries stay untouched, and the old container sits below the prepended cards |
| CardReconciliation.IdsSnoc | src/notifications/notification_center.rs:222-223 | the reported id set grows by the id of each appended notification |
| CardReconciliation.AddNewOnTop | src/notifications/notification_center.rs:241 | every created card is prepended, so the latest created is on top |
| CardReconciliation.AddNewFresh | src/notifications/notification_center.rs:239-242 | a card is created only for a listed notification whose id had no card, and the map then holds it |
| CardReconciliation.AddNewDistinct | src/notifications/notification_center.rs:239-242 | no two created cards share an id, even when the list repeats an id |
| CardReconciliation.AddNewCovers | src/notifications/notification_center.rs:238-244 | every id the map gained has its card on top of the container |
| CardReconciliation.ConcatDistinct | src/notifications/notification_center.rs:241 | prepending distinct fresh cards to a container without repeats keeps it without repeats |
| CardReconciliation.TopIds | src/notifications/notification_center.rs:241-242 | the cards on top are pairwise distinct, new to the old map and present in the new map |
| CardReconciliation.PrependKeepsConsistent | src/notifications/notification_center.rs:238-244 | the map and the container stay in one-to-one correspondence after the prepends |
| CardReconciliation.AddNewConsistent | src/notifications/notification_center.rs:237-244 | the addition loop keeps the container listing every card of the map exactly once |
| CardReconciliation.ReconcileEffect | src/notifications/notification_center.rs:213-245 | the map ends with exactly the reported ids, cards for surviving ids are kept, survivors stay at the bottom in order, new cards go on top, and the container lists each card once |
| CardReconciliation.ReconcileIdempotent | src/notifications/notification_center.rs:213-245 | a second poll against the same list changes nothing and creates no card |
| CardReconciliation.DropNothing | src/notifications/notification_center.rs:225-235 | with no stale id the container is left as it is |
| CardReconciliation.NothingNew | src/notifications/notification_center.rs:238-244 | when every listed id already has a card, the addition loop changes nothing |
| CardReconciliation.CollectStale | src/notifications/notification_center.rs:225-231 | the first loop removes exactly the widgets of stale cards and notes exactly the stale ids |
| CardReconciliation.RemoveIds | src/notifications/notification_center.rs:233-235 | the second loop deletes exactly the noted ids from the map |
| CardReconciliation.AddMissing | src/notifications/notification_center.rs:237-244 | the third loop computes what `AddNew` specifies |
| CardReconciliation.UpdateCards | src/notifications/notification_center.rs:213-245 | the three loops together compute one full reconciliation |
| CardReconciliation.Reconcile | src/notifications/notification_center.rs:213-245 | specified by ReconcileEffect and ReconcileIdempotent: the map holds exactly the reported ids, kept cards stay in order below the new ones, and a second poll changes nothing |
| NotificationCenterWindow.NotificationCenterWindow.constructor | src/notifications/notification_center.rs:22-60 | the center starts hidden with an empty card map and an empty box |
| NotificationCenterWindow.NotificationCenterWindow.UpdateNotifications | src/notifications/notification_center.rs:213-245 | after a poll the card map holds exactly the reported ids, keeps the cards of surviving ids, and the box still lists each card once |
| NotificationCenterWindow.NotificationCenterWindow.ToggleVisibility | src/notifications/notification_center.rs:247-257 | the visibility flips |
| NotificationCenterWindow.NotificationCenterWindow.SetVisible | src/notifications/notification_center.rs:259-266 | the visibility becomes the given value |
| NotificationCenterWindow.NotificationCenterWindow.IsVisible | src/notifications/notification_center.rs:268-270 | reports the visibility last set or toggled |
| NotificationPopupWindow.DismissedContents | src/notifications/notification_popup.rs:112-113 | exactly the created notifications below critical urgency get a timer |
| NotificationPopupWindow.ArmContents | src/notifications/notification_popup.rs:112-121 | one new timer per notification, each naming its id, with existing timers kept |
| NotificationPopupWindow.DismissedDistinct | src/notifications/notification_popup.rs:106-121 | timers armed in one poll name pairwise distinct ids |
| NotificationPopupWindow.ArmedOnlyForNewCards | src/notifications/notification_popup.rs:105-123 | timers are armed only for reported, non-critical notifications that had no card, never two for one id |
| NotificationPopupWindow.DismissedSnoc | src/notifications/notification_popup.rs:113 | one more created card gets a timer iff its urgency is below critical |
| NotificationPopupWindow.ArmSnoc | src/notifications/notification_popup.rs:116 | arming one more timer adds exactly one entry |
| NotificationPopupWindow.ArmStep | src/notifications/notification_popup.rs:106-123 | one more created card adds one timer naming its id under the next handle exactly when it is below critical urgency |
| NotificationPopupWindow.ArmBelow | src/notifications/notification_popup.rs:116-121 | every handle given out while arming lies below the next free one |
| NotificationPopupWindow.NotificationPopupWindow.constructor | src/notifications/notification_popup.rs:20-55 | the popup starts with no cards and no timers, and is shown iff the service already holds notifications |
| NotificationPopupWindow.NotificationPopupWindow.UpdateVisibility | src/notifications/notification_popup.rs:126-129 | the window is shown iff the notification count is positive |
| NotificationPopupWindow.NotificationPopupWindow.UpdateNotifications | src/notifications/notification_popup.rs:81-124 | the cards are reconciled as in the center and a timer is armed for each created non-critical card |
| NotificationPopupWindow.NotificationPopupWindow.ArmAll | src/notifications/notification_popup.rs:106-123 | arms exactly the timers `Arm` gives for the dismissable created cards |
| NotificationPopupWindow.NotificationPopupWindow.ArmOne | src/notifications/notification_popup.rs:116-121 | one timer naming the id is added under the next handle, which then moves on by one |
| NotificationPopupWindow.NotificationPopupWindow.FireTimer | src/notifications/notification_popup.rs:116-120 | a firing timer is no longer pending and asks the service to remove its notification |
| NotificationPopupWindow.Dismissed | src/notifications/notification_popup.rs:112-113 | specified by DismissedContents, DismissedDistinct and ArmedOnlyForNewCards: exactly the created notifications below critical urgency, in order, with distinct ids |
| NotificationPopupWindow.Arm | src/notifications/notification_popup.rs:112-121 | specified by ArmContents: exactly the handles from `next` on, the k-th naming the k-th notification's id, earlier timers kept |
| Commands.ExecuteResult | src/commands.rs:148-186 | executing any of the shell's commands succeeds |
| Commands.UndoableIffUndoSucceeds | src/commands.rs:188-227 | a command is kept for undoing exactly when its undo succeeds (workspace switch, volume, brightness); the others fail with "this command cannot be undone" |
| Commands.Description | src/commands.rs:208-218 | every command has a non-empty description |
| Commands.DescriptionExamples | src/commands.rs:304-310 | the descriptions "set volume to 75%" and "switch to workspace 3" |
| Commands.OperationsKeepBound | src/commands.rs:42-99 | execute, undo and redo keep the two stacks together within the history size |
| Commands.ExecutePushes | src/commands.rs:45-56 | an undoable success clears redo and ends on top of undo, above the newest `max - 1` older commands |
| Commands.ExecuteOtherwiseUnchanged | src/commands.rs:42-58 | a failed or non-undoable execution changes neither stack |
| Commands.UndoRedoRoundTrip | src/commands.rs:62-99 | a successful undo followed by a successful redo restores the history, and the other way round |
| Commands.UndoRedoFailuresUnchanged | src/commands.rs:62-99 | undo and redo on an empty stack fail with "Nothing to undo" / "Nothing to redo", and any failure leaves both stacks as they were |
| Commands.CommandManager.constructor | src/commands.rs:33-39 | both stacks start empty with the given history size |
| Commands.CommandManager.ExecuteCommand | src/commands.rs:42-59 | returns the command's own result and updates the stacks as `ExecuteSpec` says |
| Commands.CommandManager.Undo | src/commands.rs:62-79 | pops the top of undo, moving it to redo with "Undid: " and its description on success, putting it back on failure |
| Commands.CommandManager.Redo | src/commands.rs:82-99 | pops the top of redo, moving it to undo with "Redid: " and its description on success, putting it back on failure |
| Commands.CommandManager.CanUndo | src/commands.rs:102-104 | true iff the undo stack is non-empty |
| Commands.CommandManager.CanRedo | src/commands.rs:107-109 | true iff the redo stack is non-empty |
| Commands.CommandManager.NextUndoDescription | src/commands.rs:112-114 | the description of the top of undo, none when empty |
| Commands.CommandManager.NextRedoDescription | src/commands.rs:117-119 | the description of the top of redo, none when empty |
| Commands.CommandManager.ClearHistory | src/commands.rs:122-125 | both stacks become empty |
| Commands.ExecutorKeepsUndoable | src/commands.rs:45-99 | through the executor only undoable commands ever reach the undo stack |
| Commands.UndoSucceedsIffNonEmpty | src/commands.rs:62-79 | with only undoable commands recorded, undo succeeds iff there is something to undo |
| Commands.GlobalCommandExecutor.constructor | src/commands.rs:237-241 | a fresh manager with empty stacks keeping 50 commands |
| Commands.GlobalCommandExecutor.Execute | src/commands.rs:243-247 | delegates to the manager with the command's own execute result |
| Commands.GlobalCommandExecutor.Undo | src/commands.rs:249-251 | delegates to the manager with the command's own undo |
| Commands.GlobalCommandExecutor.Redo | src/commands.rs:253-255 | delegates to the manager with the command's own execute |
| Commands.GlobalCommandExecutor.ClearHistory | src/commands.rs:265-267 | both stacks become empty |
| Commands.CanUndo | src/commands.rs:220-227 | specified by UndoableIffUndoSucceeds: a command is kept for undoing exactly when undoing it succeeds |
| Commands.UndoResult | src/commands.rs:188-205 | specified by UndoableIffUndoSucceeds: undo succeeds for a workspace switch and a volume or brightness setting and fails for the rest |
| Commands.ExecuteSpec | src/commands.rs:42-56 | specified by ExecutePushes, ExecuteOtherwiseUnchanged and OperationsKeepBound: an undoable success clears redo and tops undo above its newest `max - 1`; anything else changes nothing; the bound is kept |
| Commands.UndoSpec | src/commands.rs:62-79 | specified by UndoRedoRoundTrip, UndoRedoFailuresUnchanged and OperationsKeepBound: "Nothing to undo" on an empty stack, a failure changes nothing, and a redo undoes it |
| Commands.RedoSpec | src/commands.rs:82-99 | specified by UndoRedoRoundTrip, UndoRedoFailuresUnchanged and OperationsKeepBound: "Nothing to redo" on an empty stack, a failure changes nothing, and an undo undoes it |
| CommandIntegration.HandleReports | src/commands/integration.rs:70-91 | every message gets an output; execution reports the description taken before it runs, and undo and redo map success and failure onto the matching outputs |
| CommandIntegration.ResultText | src/commands/integration.rs:110-123 | the kept text is the description on success and "Error: " before the error on failure |
| CommandIntegration.TileScenario | src/commands/integration.rs:141-152 | after a notification-center toggle, a volume setting and a workspace switch, two commands can be undone and undo succeeds |
| CommandIntegration.ComponentScenario | src/commands/integration.rs:155-167 | a volume setting and its undo each leave a result text |
| CommandIntegration.HandleCommandMessage | src/commands/integration.rs:70-91 | the executor's history and the output are those `Handle` gives |
| CommandIntegration.ComponentWithCommands.constructor | src/commands/integration.rs:101-106 | a fresh executor with empty history and no last result |
| CommandIntegration.ComponentWithCommands.ProcessCommand | src/commands/integration.rs:108-126 | the last result becomes the text of the output for the message |
| CommandIntegration.Handle | src/commands/integration.rs:70-91 | specified by HandleReports: every message gets an output, success and failure mapping onto the matching output with its description or error |
| MprisService.FirstOf | src/services/mpris.rs:113-115 | the first artist exists iff the list exists and is non-empty, and is its first entry |
| MprisService.PlayerState | src/services/mpris.rs:109-126 | a found player is always `Info`, with `Stopped` when it reports no status |
| MprisService.StatusEventEffect | src/services/mpris.rs:136-138 | a status event sets exactly that status, keeps the title and artist of a known player, starts an unknown one with none, and applying it twice equals once |
| MprisService.TrackChangedEffect | src/services/mpris.rs:139-144 | a track change takes the new title and first album artist, keeping the status of a known player and reporting a new one as paused |
| MprisService.ShutDownAndIgnored | src/services/mpris.rs:145-148 | a shutdown always gives `Unavailable`; other events change nothing |
| MprisService.PrependChange | src/services/mpris.rs:50-56 | emitting a state only when it differs keeps the run of reports free of repeats |
| MprisService.ListenReportsChangesOnly | src/services/mpris.rs:46-73 | no state is reported twice in a row, and the last report is the state listening ends in |
| MprisService.MprisWatcher.constructor | src/services/mpris.rs:29 | the last reported state starts as `Unavailable` |
| MprisService.MprisWatcher.Observe | src/services/mpris.rs:36-40 | reports the state iff it differs from the last one, which it then becomes |
| MprisService.MprisWatcher.ListenTo | src/services/mpris.rs:43-73 | the reports and the final state are those of `Listen`, stopping at a shutdown or a receive error |
| MprisService.HandlePlayerEvent | src/services/mpris.rs:128-179 | specified by StatusEventEffect, TrackChangedEffect and ShutDownAndIgnored: a status event sets just the status, a track change the title and first artist, a shutdown gives `Unavailable`, and other events change nothing |
| MprisService.StatusOf | src/services/mpris.rs:136-138 | specified by StatusEventEffect: the status a status event sets, which applied twice is applied once |
| MprisService.Listen | src/services/mpris.rs:46-73 | specified by ListenStep and ListenReportsChangesOnly: events are handled in order until a shutdown or receive error, no state is reported twice in a row, and the last report is the final state |
| MprisRelm4.StatusIconInjective | src/tiles/mpris_relm4.rs:136-142 | different statuses get different glyphs |
| MprisRelm4.DisplayTitle | src/tiles/mpris_relm4.rs:144-150 | "No media" exactly for an empty title or the placeholder, otherwise the title itself |
| MprisRelm4.MprisWidget.constructor | src/tiles/mpris_relm4.rs:100-105 | no player, the placeholder title, no artist, `Stopped` |
| MprisRelm4.MprisWidget.Update | src/tiles/mpris_relm4.rs:112-132 | a click reports "mpris" and changes nothing; new media sets title, artist and status; losing the player resets them; finding one changes only the flag |
| MprisRelm4.LostPlayerShowsNoMedia | src/tiles/mpris_relm4.rs:125-128 | after the player goes, the tile shows "No media" |
| MprisRelm4.StatusIcon | src/tiles/mpris_relm4.rs:136-142 | specified by StatusIconInjective: different statuses get different glyphs |
| MprisTile.StatusFromStr | src/tiles/mpris.rs:24-33 | "Playing" and "Paused" decode to themselves, anything else to `Stopped` |
| MprisTile.StatusNameRoundTrip | src/tiles/mpris.rs:24-33 | every status decodes from its own name |
| MprisTile.ExtractMetadataString | src/tiles/mpris.rs:359-373 | a string entry as is, a list by its first item, and nothing for other values or a missing key |
| MprisTile.TruncateText | src/tiles/mpris.rs:375-381 | text within the width is kept; longer text becomes its first `max - 1` characters and an ellipsis, exactly `max` long |
| MprisTile.TruncateTextBound | src/tiles/mpris.rs:375-381 | a truncated label never exceeds its width and truncating again changes nothing |
| MprisTile.DisplayFor | src/tiles/mpris.rs:324-357 | the tile is visible iff the status reads as not stopped, and both labels fit 30 characters |
| MprisTile.MediaWidget.constructor | src/tiles/mpris.rs:84-143 | hidden, the stopped glyph, no players and no current player |
| MprisTile.MediaWidget.UpdateDisplay | src/tiles/mpris.rs:324-357 | the icon, labels and visibility are those `DisplayFor` gives |
| MprisTile.MediaWidget.AddPlayer | src/tiles/mpris.rs:257-299 | a reachable player is tracked and becomes current when there is none; a proxy failure changes nothing |
| MprisTile.MediaWidget.RemovePlayer | src/tiles/mpris.rs:301-322 | the corrected half of Findings row src/tiles/mpris.rs:310-318 (the code as written panics when the current player is removed; see `RemoveAsWritten`): the player is dropped; removing the current one switches to a remaining player or clears it and hides the tile; removing another leaves the current one |
| MprisTile.RemoveAsWritten | src/tiles/mpris.rs:301-322 | as written, removing a player panics with a `BorrowMutError` exactly when it is the current one; removing another drops it and keeps the current player |
| MprisTile.RemovingOnlyPlayerPanics | src/tiles/mpris.rs:310-318 | one tracked player, current, losing its bus owner makes the removal panic |
| MprisTile.MediaWidget.NameOwnerChanged | src/tiles/mpris.rs:223-251 | only names with the MPRIS prefix matter; an empty or missing owner removes the player through the corrected `RemovePlayer` of Findings row src/tiles/mpris.rs:310-318, another owner adds it |
| MprisTile.MediaWidget.Discover | src/tiles/mpris.rs:198-218 | every reachable player with the MPRIS prefix already on the bus is tracked |
| MprisTile.MediaWidget.Click | src/tiles/mpris.rs:145-164 | the corrected half of Findings row src/tiles/mpris.rs:145-152 (as written a click never toggles anything; see `ClickAsWritten`): a click toggles playback of the current player, if any |
| MprisTile.ClickTarget | src/tiles/mpris.rs:150-153 | the handler toggles a player exactly when the current-player cell it reads names a player in the table it reads, and then that player |
| MprisTile.ClickAsWritten | src/tiles/mpris.rs:145-164 | as written the handler reads its own clones of the two cells, which stay empty, so a click never toggles a player |
| MprisTile.ClickNeverToggles | src/tiles/mpris.rs:145-172 | even while a tracked player is current, so that the corrected click toggles it, the click as written toggles nothing |
| MprisTile.StatusName | src/tiles/mpris.rs:24-33 | specified by StatusNameRoundTrip: every status decodes from its own name |
| Hyprland.ApplyLinesAppend | src/services/hyprland.rs:228-274 | lines apply in order, so a chunk split in two applies in two goes |
| Hyprland.IgnoredLines | src/services/hyprland.rs:229-230 | a line without `>>` or with an unhandled event type changes nothing |
| Hyprland.EventLineSplits | src/services/hyprland.rs:230 | a line splits at its first `>>`, so the data may contain `>>` |
| Hyprland.WorkspaceEvent | src/services/hyprland.rs:232-242 | `workspace>>N` with an `i32` N sets the active id, and the name only when N is in the table; other data changes nothing |
| Hyprland.ActiveWindowEvent | src/services/hyprland.rs:243-249 | `activewindow` splits at the first comma into class and title; without a comma nothing changes |
| Hyprland.WorkspaceTableEvents | src/services/hyprland.rs:250-267 | `createworkspace` asks for a refresh and changes nothing itself; `destroyworkspace>>N` removes only entry N |
| Hyprland.LastWorkspaceLineWins | src/services/hyprland.rs:229-234 | a valid `workspace` line last in a chunk decides the active workspace |
| Hyprland.WorkspaceMap | src/services/hyprland.rs:255-259 | the table has exactly the listed ids, each mapped to the last entry carrying it |
| Hyprland.SwitchCommand | src/services/hyprland.rs:317-321 | the command starts with "dispatch workspace " and its argument reads back as the id |
| Hyprland.HyprlandService.constructor | src/services/hyprland.rs:93-120 | available iff the instance signature is set, with empty state |
| Hyprland.HyprlandService.HandleEvent | src/services/hyprland.rs:228-274 | the state after a chunk is that of `ApplyLines` on its lines |
| Hyprland.HyprlandService.HandleLines | src/services/hyprland.rs:229-273 | handling the lines one by one ends in the state `ApplyLines` gives |
| Hyprland.HyprlandService.HandleLine | src/services/hyprland.rs:230-272 | the state after one line is that of `ApplyLine` |
| Hyprland.HyprlandService.ReplaceWorkspaces | src/services/hyprland.rs:253-261 | a fetched list replaces the whole table; a failed fetch leaves it |
| Hyprland.HyprlandService.IsWorkspaceActive | src/services/hyprland.rs:329-331 | true iff the id is the active one |
| Hyprland.HyprlandService.HasFocusedWindow | src/services/hyprland.rs:333-335 | true iff the focused title is non-empty |
| Hyprland.HyprlandService.WorkspaceById | src/services/hyprland.rs:280-282 | the entry for the id iff the table has one |
| Hyprland.ApplyLine | src/services/hyprland.rs:229-272 | specified by IgnoredLines, WorkspaceEvent, ActiveWindowEvent and WorkspaceTableEvents: one event line's effect on the state and whether it asks for the workspace table |
| Hyprland.ApplyLines | src/services/hyprland.rs:228-274 | specified by ApplyLinesAppend and LastWorkspaceLineWins: lines apply in order and count the refreshes they ask for; a valid `workspace` line last decides the active workspace |
| WeatherService.MeridiemsExclusive | src/services/weather.rs:83-88 | no meridiem reads as both AM and PM |
| WeatherService.PlainMeridiems | src/services/weather.rs:82-88 | `AM` and `PM` read as themselves and not as each other |
| WeatherService.ParseTime12hFailures | src/services/weather.rs:78-81 | no space, no colon, or a part that is not a `u32` gives nothing |
| WeatherService.MeridiemRule | src/services/weather.rs:83-88 | PM adds twelve to any hour but 12, AM turns 12 into 0, anything else keeps the hour |
| WeatherService.ParseTime12hParts | src/services/weather.rs:77-90 | a readable time keeps its minute and converts its hour by the trimmed meridiem |
| WeatherService.Pad2 | src/services/weather.rs:77-90 | two digits reading back as the number |
| WeatherService.Hour12 | src/services/weather.rs:77-90 | the 12-hour clock face of an hour, between 1 and 12 |
| WeatherService.To24hUndoesHour12 | src/services/weather.rs:83-88 | the meridiem rule undoes the 12-hour clock face |
| WeatherService.AmHour | src/services/weather.rs:86-88 | morning hours convert back unchanged |
| WeatherService.PmHour | src/services/weather.rs:83-85 | afternoon hours convert back unchanged |
| WeatherService.ParseWrittenTime | src/services/weather.rs:77-90 | `H:M MER` parses to the converted hour and the minute |
| WeatherService.ParseFormat12h | src/services/weather.rs:77-90 | parsing a time written in wttr.in's 12-hour format gives back the 24-hour hour and minute |
| WeatherService.IsDarkNowByMinutes | src/services/weather.rs:176-185 | dark iff strictly before sunrise or strictly after sunset in minutes since midnight, with 06:00 and 18:00 as defaults |
| WeatherService.MinutesCompare | src/services/weather.rs:182-183 | comparing hour then minute equals comparing minutes since midnight |
| WeatherService.DarknessMatters | src/services/weather.rs:92-130 | only clear, partly cloudy, cloudy, overcast and unlisted codes change icon after dark |
| WeatherService.ClearAndUnlisted | src/services/weather.rs:94-100 | clear sky is the moon by night and the sun by day; an unlisted code is the moon by night and a cloud by day |
| WeatherService.ReadReport | src/services/weather.rs:132-167 | succeeds iff there is a current condition, a day and an astronomy entry; the temperature is the parsed `temp_F` or 0 |
| WeatherService.NextBackoff | src/services/weather.rs:169-174 | 60 after the first failure, then double the previous, kept between 60 and 300 |
| WeatherService.BackoffSchedule | src/services/weather.rs:169-174 | failures in a row wait 60, 120, 240 and then 300 seconds |
| WeatherService.PollStepAsWritten | src/services/weather.rs:57-72 | the loop as written publishes `Finish` or `Abort` and resets or advances the backoff |
| WeatherService.SuccessSkipsWait | src/services/weather.rs:59-63 | after a success the loop as written never sleeps |
| WeatherService.PollStep | src/services/weather.rs:56-72 | with the sleep after a success, the wait is 600 seconds after a success and the backoff after a failure |
| WeatherService.PollStepAgrees | src/services/weather.rs:57-72 | both loops publish the same messages and keep the same backoff |
| WeatherService.Poll | src/services/weather.rs:54-74 | the k-th turn is `Turn`: it publishes the fetched data or `Abort`, then waits 600 seconds after a success and otherwise `WaitAfter` the failures in a row ending there (60, 120, 240, then 300 seconds) |
| WeatherService.BackoffChain | src/services/weather.rs:169-174 | after j ≥ 1 failures in a row the backoff is 60 · 2^(j-1) seconds, capped at 300 |
| WeatherService.BackoffBeforeChain | src/services/weather.rs:54-74 | the backoff the loop holds after a run of outcomes is the one its trailing failures give, `None` after a success |
| WeatherService.PollTurn | src/services/weather.rs:57-71 | the turn for an outcome publishes `Finish` of the fetched data or `Abort`, and waits as the failures in a row ending with it say |
| WeatherService.TrailingFailures | src/services/weather.rs:57-67 | the number of failures at the end of the run, never more than its length |
| WeatherService.WeatherSlot.constructor | src/services/weather.rs:32-35 | the slot starts empty |
| WeatherService.WeatherSlot.Update | src/services/weather.rs:37-50 | `Abort` clears the slot and `Finish` stores the data |
| WeatherService.ParseTime12h | src/services/weather.rs:77-90 | specified by ParseTime12hFailures, ParseTime12hParts and ParseFormat12h: nothing without a space, a colon and two `u32` parts; otherwise the minute and the hour converted by the trimmed meridiem; a time in wttr.in's 12-hour format reads back as its 24-hour hour and minute |
| WeatherService.To24h | src/services/weather.rs:82-88 | specified by MeridiemRule and To24hUndoesHour12: PM adds twelve to any hour but 12, AM turns 12 into 0, other text keeps the hour, and it undoes the 12-hour clock face |
| WeatherService.IsDarkNow | src/services/weather.rs:176-185 | specified by IsDarkNowByMinutes: dark iff strictly before sunrise or strictly after sunset, an unreadable sunrise counting as 06:00 and an unreadable sunset as 18:00 |
| WeatherService.MapIcon | src/services/weather.rs:92-130 | specified by DarknessMatters and ClearAndUnlisted: darkness changes the icon exactly for codes 113, 116, 119, 122 and unlisted codes; clear sky is the moon or the sun, an unlisted code the moon or a cloud |
| WeatherTile.Lookup | src/tiles/weather.rs:298-310 | the icon of the first table entry with the code, none iff no entry has it |
| WeatherTile.WeatherIcon | src/tiles/weather.rs:293-313 | after dark the night table first, then the day table, then the unknown icon |
| WeatherTile.UnknownIffNotInDayTable | src/tiles/weather.rs:293-313 | the unknown icon appears exactly for codes missing from the day table |
| WeatherTile.NightCodesAreDayCodes | src/tiles/weather.rs:47-106 | every night code is also a day code |
| WeatherTile.DayIconsKnown | src/tiles/weather.rs:47-108 | no day icon is the unknown icon |
| WeatherTile.ConvertAgrees | src/tiles/weather.rs:350-355 | the tile's meridiem conversion agrees with the worker's |
| WeatherTile.ParseTimeCases | src/tiles/weather.rs:332-358 | malformed input reads as noon; an unreadable hour counts as 12 and an unreadable minute as 0 |
| WeatherTile.ConvertRule | src/tiles/weather.rs:350-355 | PM adds twelve to any hour but 12, AM turns 12 into 0 |
| WeatherTile.DarkTimeBoundaries | src/tiles/weather.rs:315-330 | the sunrise and sunset minutes themselves are daylight |
| WeatherTile.ShouldUpdateAfterTenMinutes | src/tiles/weather.rs:191-200 | a refresh is due iff nothing was fetched yet or ten whole minutes have passed |
| WeatherTile.Shown | src/tiles/weather.rs:264-291 | a displayable report shows the tile with the temperature and a degree sign, keeping the old description when it has none; other reports change nothing |
| WeatherTile.WeatherWidget.constructor | src/tiles/weather.rs:120-171 | hidden, the unknown icon, `--°`, and nothing fetched yet |
| WeatherTile.WeatherWidget.Tick | src/tiles/weather.rs:185-213 | the corrected tick of Findings row src/tiles/weather.rs:182-237 (`TickFetches`, reading a shared last-update cell; as written every tick fetches, see `TickFetchesAsWritten`): a tick fetches iff a refresh is due |
| WeatherTile.WeatherWidget.FetchCompleted | src/tiles/weather.rs:233-245 | a failure keeps everything; a success records the time and the report and shows it through the guarded `Shown`, the corrected half of Findings row src/tiles/weather.rs:270-275 (as written an empty astronomy list panics, see `DisplayAsWritten`) |
| WeatherTile.WeatherWidget.UpdateDisplay | src/tiles/weather.rs:264-291 | the labels become those the guarded `Shown` gives, the corrected half of Findings row src/tiles/weather.rs:270-275 (as written an empty astronomy list panics, see `DisplayAsWritten`) |
| WeatherTile.TickFetchesAsWritten | src/tiles/weather.rs:182-237 | with the cell cloned, one decision per event |
| WeatherTile.EveryTickFetchesAsWritten | src/tiles/weather.rs:182-237 | as written, every minute tick fetches |
| WeatherTile.TickFetches | src/tiles/weather.rs:185-237 | with a shared cell, one decision per event |
| WeatherTile.RecentSuccessSuppressesFetch | src/tiles/weather.rs:191-200 | with a shared cell, a tick within ten minutes of a success does not fetch, where the tile as written does |
| WeatherTile.EmptyAstronomyPanics | src/tiles/weather.rs:270-275 | a report with an empty astronomy list passes the guard and indexes out of bounds; the guarded display skips it and otherwise agrees |
| WeatherTile.ParseTime | src/tiles/weather.rs:332-358 | specified by ParseTimeCases: anything but two words whose first has two `:`-parts is noon; otherwise the minute (0 when unreadable) and the hour (12 when unreadable) after the meridiem rule |
| WeatherTile.Convert | src/tiles/weather.rs:350-355 | specified by ConvertRule and ConvertAgrees: the same meridiem rule as the worker's |
| WeatherTile.IsDarkTime | src/tiles/weather.rs:315-330 | specified by DarkTimeBoundaries: sunrise and sunset minutes are daylight; with both unreadable only noon is daylight |
| WeatherTile.ShouldUpdate | src/tiles/weather.rs:191-200 | specified by ShouldUpdateAfterTenMinutes: a refresh is due iff nothing was fetched yet or at least 600 seconds have passed |
| WeatherTile.MinutesBetween | src/tiles/weather.rs:195-196 | specified by ShouldUpdateAfterTenMinutes: whole minutes truncated toward zero, so ten of them are 600 seconds |
| WeatherTile.Displayable | src/tiles/weather.rs:264-291 | specified by Shown and EmptyAstronomyPanics: a report shows iff it has a current condition, a day and an astronomy entry |
| WeatherTile.DisplayAsWritten | src/tiles/weather.rs:270-275 | specified by EmptyAstronomyPanics: as written, a report with an empty astronomy list panics; on every other report it agrees with `Displayable` |
| Icons.ToUsize | src/utils/icons.rs:21 | `as usize` rounds toward zero and saturates, so negative values give 0 and the result never exceeds `usize::MAX` |
| Icons.IconIndex | src/utils/icons.rs:21-22 | the index is always within the list |
| Icons.PercentageToIcon | src/utils/icons.rs:20-23 | the icon is always one of the list's |
| Icons.IconIndexFloor | src/utils/icons.rs:21-22 | for a non-negative fraction the index is the floor of fraction times length, capped at the last index |
| Icons.IconIndexEnds | src/utils/icons.rs:21-22 | a full fraction or more picks the last icon; less than one step, negatives included, picks the first |
| Icons.IconIndexMonotone | src/utils/icons.rs:21-22 | a larger fraction never picks an earlier icon |
| Icons.CappedMonotone | src/utils/icons.rs:21-22 | the saturating cast, capped at the last index, keeps the order of its inputs |
| Icons.Capped | src/utils/icons.rs:21-22 | below the list's length; specified further by CappedMonotone: it keeps the order of its inputs |
| NetworkTypes.StateRoundTrip | src/network/types.rs:1-27 | decoding a state's code gives it back; exactly the eight declared codes decode to themselves, any other gives `Unknown` |
| NetworkTypes.ConnectedCodes | src/services/network.rs:338-344 | connected states are exactly those coded 50 and above |
| NetworkTypes.DeviceTypeRoundTrip | src/network/types.rs:29-101 | every declared device type round-trips; 3, 4 and codes above 32 give `Unknown` |
| NetworkTypes.DeviceStateRoundTrip | src/network/types.rs:103-139 | device states round-trip; the multiples of ten up to 120 decode to themselves, anything else to `Unknown` |
| NetworkTypes.ConnectivityRoundTrip | src/network/types.rs:141-161 | connectivity round-trips; 1 to 4 name the levels, anything else gives `Unknown` |
| NetworkTypes.StateCode | src/network/types.rs:1-12 | specified by StateRoundTrip and ConnectedCodes: the declared discriminant of each state, which decodes back to it |
| NetworkTypes.StateFrom | src/network/types.rs:14-27 | specified by StateRoundTrip: a code decodes to the state it names, or else to `Unknown` |
| NetworkTypes.IsConnected | src/services/network.rs:339-344 | specified by ConnectedCodes: the connected states are exactly those coded 50 and above |
| NetworkTypes.DeviceTypeCode | src/network/types.rs:29-63 | specified by DeviceTypeRoundTrip: the declared discriminant of each device type, which decodes back to it |
| NetworkTypes.DeviceTypeFrom | src/network/types.rs:65-101 | specified by DeviceTypeRoundTrip: a declared code decodes to its type; 3, 4 and codes above 32 give `Unknown` |
| NetworkTypes.DeviceStateCode | src/network/types.rs:103-119 | specified by DeviceStateRoundTrip: the declared discriminant of each device state, which decodes back to it |
| NetworkTypes.DeviceStateFrom | src/network/types.rs:121-139 | specified by DeviceStateRoundTrip: exactly the multiples of ten up to 120 decode to a state coded by them |
| NetworkTypes.ConnectivityCode | src/network/types.rs:141-149 | specified by ConnectivityRoundTrip: the declared discriminant of each connectivity level, which decodes back to it |
| NetworkTypes.ConnectivityFrom | src/network/types.rs:151-161 | specified by ConnectivityRoundTrip: 1 to 4 name the known levels and every other code gives `Unknown` |
| NetworkService.WifiInfoAcceptance | src/services/network.rs:433-467 | Wi-Fi info is accepted iff the access point is not "/", the SSID bytes are non-empty and the decoded SSID is not all whitespace, and then it is the SSID and strength |
| NetworkService.WalkFailsIff | src/services/network.rs:362-370 | the fetch fails exactly when a device's type or state cannot be read before the walk has ended |
| NetworkService.WalkKeepsOverallState | src/services/network.rs:358-428 | the walk only fills in the device fields, and changes the Wi-Fi fields only when it ends on a Wi-Fi device |
| NetworkService.FetchConnected | src/services/network.rs:333-431 | a disconnected or unreadable-device-list fetch leaves type, SSID and strength unset; `connected` iff the state is connected |
| NetworkService.DefaultIsDisconnected | src/services/network.rs:244-255 | the default info is disconnected and unknown everywhere, with an empty SSID and strength 0 |
| NetworkService.FetchNetworkInfo | src/services/network.rs:333-431 | the loop over the device list computes what `Fetch` specifies |
| NetworkService.GetWifiInfo | src/services/network.rs:433-467 | specified by WifiInfoAcceptance: the SSID and strength iff the access point is not "/", every read succeeds and the SSID is non-empty and not all whitespace |
| NetworkService.Walk | src/services/network.rs:358-428 | specified by WalkFailsIff and WalkKeepsOverallState: fails iff a device read fails before the walk ends, and fills in only the device fields |
| NetworkService.Fetch | src/services/network.rs:333-431 | specified by FetchConnected and FetchNetworkInfo: `connected` iff one of the three connected states, and no device, SSID or strength while disconnected |
| NetworkService.Published | src/services/network.rs:244-255 | specified by FetchConnected and DefaultIsDisconnected: a failed fetch publishes the disconnected default |
| Network.ChangeFrames | src/network.rs:58-72 | a state change sets only the state, a connectivity change only the connectivity; a successful refetch replaces all, a failed one changes nothing |
| Network.ApplyAllAppend | src/network.rs:56-74 | events apply one after another |
| Network.WithoutFailedFetches | src/network.rs:64-72 | the failed refetches removed, nothing else |
| Network.FailedFetchesInvisible | src/network.rs:69-71 | the state after a run of events is the same without its failed refetches |
| Network.LastFetchDecidesDevice | src/network.rs:58-72 | the last successful refetch decides the specific info whatever state and connectivity changes follow |
| Network.FetchPrimaryRules | src/network.rs:148-214 | specific info is none unless connected with a device; Ethernet is wired, Wi-Fi carries the accepted SSID and strength, other types none |
| Network.RejectedSsidKeepsState | src/network.rs:185-186 | a rejected SSID on the primary Wi-Fi device fails the refetch, which leaves the state as it was |
| Network.IconRules | src/network.rs:256-271 | the globe-off icon for disconnected, disconnecting, asleep and unknown; otherwise by strength for Wi-Fi, wired for wired and Wi-Fi-disabled for none |
| Network.IconMonotone | src/network.rs:263-267 | a stronger signal never shows a weaker level |
| Network.NetworkStore.constructor | src/network.rs:27-33 | the shared state starts as the default |
| Network.NetworkStore.Apply | src/network.rs:57-73 | the state after one event is that of `ApplyChange` |
| Network.NetworkStore.Run | src/network.rs:52-81 | the state after the received events is that of `ApplyAll` |
| Network.ApplyChange | src/network.rs:58-72 | specified by ChangeFrames and RejectedSsidKeepsState: a state or connectivity change sets only that field; a successful refetch replaces the info and a failed one changes nothing |
| Network.ApplyAll | src/network.rs:56-74 | specified by ApplyAllAppend, FailedFetchesInvisible and LastFetchDecidesDevice: changes apply in order, failed refetches leave no trace, and the last successful refetch decides the specific info |
| Network.FetchPrimary | src/network.rs:148-214 | specified by FetchPrimaryRules and RejectedSsidKeepsState: the state and connectivity as read, specific info only while connected, and a rejected Wi-Fi SSID fails the fetch |
| Network.GetIcon | src/network.rs:256-271 | specified by IconRules and IconMonotone: the globe for the four unconnected states, otherwise by the specific info, with a valid Wi-Fi level that never drops as the signal grows |
| NetworkTileRelm4.IconRules | src/tiles/network_relm4.rs:125-143 | offline whenever disconnected; connected Wi-Fi picks a strength glyph, the last one at full strength, or the plain wireless icon without a strength; offline otherwise only for no network |
| NetworkTileRelm4.TextRules | src/tiles/network_relm4.rs:145-179 | a known SSID shows even while disconnected, else "WiFi" iff connected; Ethernet, Mobile and VPN labels show iff connected; no network shows "Disconnected" |
| NetworkTileRelm4.NetworkTile.constructor | src/tiles/network_relm4.rs:72-78 | disconnected, no network, no strength and no SSID |
| NetworkTileRelm4.NetworkTile.Update | src/tiles/network_relm4.rs:99-121 | a service update replaces all four fields; a click reports "network"; a right click does nothing |
| NetworkTileRelm4.TileIcon | src/tiles/network_relm4.rs:125-143 | specified by IconRules: offline whenever disconnected; connected Wi-Fi shows a strength glyph when the strength is known, and every other type its fixed icon |
| NetworkTileRelm4.TileText | src/tiles/network_relm4.rs:145-179 | specified by TextRules: a known SSID shows even while disconnected, the type labels show exactly while connected, and no network shows "Disconnected" |
| NetworkTile.DisplayIcon | src/tiles/network.rs:45-56 | the glyph is always a Wi-Fi or wired glyph |
| NetworkTile.AppliedClasses | src/tiles/network.rs:66-75 | `network-connected` iff connected, `network-disconnected` iff not, and the Wi-Fi or Ethernet class only while connected with that type |
| NetworkTile.IconRules | src/tiles/network.rs:45-56 | disconnected shows the weakest Wi-Fi glyph; connected Wi-Fi goes by strength; Ethernet shows the wired glyph; other types the weakest Wi-Fi glyph |
| NetworkTile.NetworkIconLabel.constructor | src/tiles/network.rs:29-32 | the label starts with the `icon` and `dim` classes |
| NetworkTile.NetworkIconLabel.UpdateDisplay | src/tiles/network.rs:40-80 | sets the glyph, replaces the four state classes and swaps `dim` for `bright` |
| NetworkTile.NetworkIconLabel.FadeTimeout | src/tiles/network.rs:81-91 | swaps `bright` back to `dim` |
| NetworkTile.UpdateThenFade | src/tiles/network.rs:60-91 | after an update and its fade the label is dim again and keeps exactly the applied state classes |
| WifiMenu.TextsInjective | src/wifi_menu.rs:83-104 | different connectivities, and different states, never share a text |
| WifiMenu.StrengthIndex | src/wifi_menu.rs:455-456 | the rounded index is the nearest whole number to strength / 25 |
| WifiMenu.StrengthIconRange | src/wifi_menu.rs:451-459 | strengths up to 112 index the list, from the weakest glyph at 12 or less to the strongest from 88; above 112 the fallback glyph; monotone in strength |
| WifiMenu.FirstActive | src/wifi_menu.rs:115 | the first active access point, none iff none is active |
| WifiMenu.NetworkIconRules | src/wifi_menu.rs:106-124 | the disabled glyph iff Wi-Fi is off; with no SSID or no active access point the disconnected glyph; otherwise the active point's strength glyph |
| WifiMenu.ClickAccessPoint | src/wifi_menu.rs:434-447 | the click carries the row's SSID and asks for a password iff the network needs one |
| WifiMenu.WifiMenuModel.constructor | src/wifi_menu.rs:306-310 | the menu starts from the given state with no dialog |
| WifiMenu.WifiMenuModel.Update | src/wifi_menu.rs:332-368 | a state update replaces the state and the rows; the dialog opens for an SSID and closes on hide or on a password connect; the rest only log |
| WifiMenu.ClickEffect | src/wifi_menu.rs:301-304 | a click needing a password opens the dialog for that SSID, any other asks to connect to it |
| WifiMenu.ConnectivityText | src/wifi_menu.rs:83-91 | specified by TextsInjective: different connectivities never share a text |
| WifiMenu.StateText | src/wifi_menu.rs:93-104 | specified by TextsInjective: different states never share a text |
| WifiMenu.StrengthIcon | src/wifi_menu.rs:451-459 | specified by StrengthIconRange: a glyph of the list for every strength up to 100, the weakest for 0 to 12 and the strongest from 88, never weaker for a stronger signal |
| WifiMenu.NetworkIcon | src/wifi_menu.rs:106-124 | specified by NetworkIconRules: the disabled glyph exactly while Wi-Fi is off; a strength glyph needs a connected SSID and an active access point; otherwise the disconnected glyph |
| WifiMenu.Forward | src/wifi_menu.rs:301-304 | specified by ClickEffect: a click needing a password opens the dialog for that SSID, any other asks to connect |
| WifiMenu.ConnectButton | src/wifi_menu.rs:318-325 | the dialog's button sends a password connection carrying the typed password |
| WifiMenu.ConnectButtonIgnoresDialog | src/wifi_menu.rs:321-324 | the SSID sent is the placeholder, never the SSID the dialog was opened for |
| NetworkMenu.ClickAccessPoint | src/network_menu.rs:270-279 | a click sends a password request for the SSID iff the SSID can be read |
| NetworkMenu.NetworkMenuModel.constructor | src/network_menu.rs:166-173 | the menu starts from the current shared state with no dialog, not scanning |
| NetworkMenu.NetworkMenuModel.Update | src/network_menu.rs:195-223 | toggle, scan, connect and password connect stop in `todo!()` (after the dialog is closed for the last); a state update replaces the state; show and hide set the dialog |
| NetworkMenu.ClickOpensDialog | src/network_menu.rs:155-159 | every readable access point clicked opens the password dialog and never reaches a panicking handler |
| TileWidget.AttentionRoundTrip | src/widgets/tile.rs:4-34 | converting an attention to its integer and back is the identity; integers outside 0 to 3 decode to `Normal`, inside they round-trip |
| TileWidget.CssClassRules | src/widgets/tile.rs:36-45 | only `Normal` has no CSS class; the other three have distinct classes drawn from alarm, warning and dim |
| TileWidget.ByteLenAppend | src/widgets/tile.rs:182 | the UTF-8 byte length of a concatenation is the sum of the lengths |
| TileWidget.CharsWithin | src/widgets/tile.rs:181-187 | the longest character prefix that fits in the byte budget: it fits and one more character would not |
| TileWidget.TruncateAsWritten | src/widgets/tile.rs:181-187 | text that fits is kept; longer text panics exactly when the byte cut falls inside a character, else is cut to exactly the budget plus an ellipsis |
| TileWidget.TruncatePanicsInsideGlyph | src/widgets/tile.rs:181-187 | a one-byte character followed by eight four-byte glyphs is 33 bytes and cutting it to 32 bytes panics |
| TileWidget.GlyphTextPanics | src/widgets/tile.rs:181-187 | the concrete text "x" plus eight U+F0599 glyphs makes the 32-byte cut panic |
| TileWidget.GlyphPrefixLengths | src/widgets/tile.rs:182-185 | in that text the first i characters take 4i-3 bytes |
| TileWidget.Truncate | src/widgets/tile.rs:181-187 | text within the budget is unchanged; longer text becomes the longest character prefix within the budget plus an ellipsis; the result is empty iff the text is |
| TileWidget.TruncateAgrees | src/widgets/tile.rs:181-187 | wherever the code as written does not panic it equals the corrected cut, which always ends on a character boundary within the budget |
| TileWidget.Label.constructor | src/widgets/tile.rs:110-126 | a label starts empty, visible, with only its base class |
| TileWidget.Label.Show | src/widgets/tile.rs:138-162 | a text is shown cut to 32 bytes by the corrected `Truncate` of Findings row src/widgets/tile.rs:181-187 (as written a cut inside a character panics, see `TruncateAsWritten`); no text leaves the old text; the label is visible exactly when a non-empty text is given |
| TileWidget.Label.ApplyAttention | src/widgets/tile.rs:165-174 | all attention classes are removed and the current one added unless `Normal`, other classes untouched |
| TileWidget.AtMostOneAttentionClass | src/widgets/tile.rs:165-174 | after applying an attention a label carries exactly its class, or no attention class for `Normal` |
| TileWidget.Tile.constructor | src/widgets/tile.rs:110-126 | a new tile has no texts, `Normal` attention, is visible and is displayed accordingly |
| TileWidget.Tile.UpdateDisplay | src/widgets/tile.rs:134-178 | every label shows its text cut by the corrected `Truncate` of Findings row src/widgets/tile.rs:181-187 (as written a cut inside a character panics, see `TruncateAsWritten`) or keeps its old one, carries the current attention class and keeps its other classes; the widget follows the visibility flag |
| TileWidget.Tile.SetTileContent | src/tiles/battery.rs:50-95 | the icon, primary and secondary texts and the attention all take the new values and the tile is displayed |
| TileWidget.Tile.ShowTexts | src/widgets/tile.rs:138-162 | each label shows its cut text, or keeps its text and hides for none, and no class changes |
| TileWidget.Tile.ShowAttention | src/widgets/tile.rs:165-174 | every label ends with exactly the current attention class, or none for Normal, its other classes and texts unchanged |
| TileWidget.Tile.SetTileIcon | src/widgets/tile.rs:214-218 | the icon is stored and the display refreshed |
| TileWidget.Tile.SetTilePrimary | src/widgets/tile.rs:219-223 | the primary text is stored and the display refreshed |
| TileWidget.Tile.SetTileSecondary | src/widgets/tile.rs:224-228 | the secondary text is stored and the display refreshed |
| TileWidget.Tile.SetTileAttention | src/widgets/tile.rs:229-233 | the attention is stored and the display refreshed |
| TileWidget.Tile.SetTileVisibility | src/widgets/tile.rs:234-238 | the visibility is stored, the widget follows it and the display is refreshed |
| TileWidget.Build | src/widgets/tile.rs:242-294 | a built tile carries every builder setting and is displayed accordingly |
| TileWidget.AttentionCode | src/widgets/tile.rs:30-34 | specified by AttentionRoundTrip: the discriminant of each attention, which converts back to it |
| TileWidget.AttentionFrom | src/widgets/tile.rs:18-28 | specified by AttentionRoundTrip: 0 to 3 give their attentions and every other integer gives `Normal` |
| TileWidget.CssClass | src/widgets/tile.rs:36-45 | specified by CssClassRules and AtMostOneAttentionClass: only `Normal` has no class and the other three have distinct ones |
| TileWidget.ByteLen | src/widgets/tile.rs:182 | specified by ByteLenAppend: the UTF-8 length of a concatenation is the sum of the lengths |
| ProgressTile.ViewClasses | src/widgets/progress_tile.rs:173-182 | both widgets carry "active" exactly while the tile is active, and the class of the current attention and of no other |
| ProgressTile.ProgressTileModel.constructor | src/widgets/progress_tile.rs:91-104 | the tile takes the initial settings and starts inactive with no fade timer |
| ProgressTile.ProgressTileModel.Activate | src/widgets/progress_tile.rs:201-217 | panics exactly when the armed timer has already fired, so that GLib no longer holds its source and `SourceId::remove` fails; otherwise the armed timer, if any, is cancelled and a new one armed, leaving the tile active |
| ProgressTile.ProgressTileModel.Update | src/widgets/progress_tile.rs:142-171 | a click is reported; setters replace their field; only a loud progress change activates and re-arms the single fade timer, panicking as `Activate` says; a fade timeout deactivates; unless it panicked the active flag matches an armed timer |
| ProgressTile.FiredTimerRace | src/widgets/progress_tile.rs:201-217 | a loud progress change, the timer firing, and a second loud change handled before the queued `FadeTimeout` make the tile panic |
| ProgressTile.ProgressTileModel.Fire | src/widgets/progress_tile.rs:212-215 | a firing timer stops being pending and delivers `FadeTimeout` |
| ProgressTile.CssClass | src/widgets/progress_tile.rs:12-18 | specified by ViewClasses: each attention's class, present exactly for the current attention |
| ProgressTile.IconClasses | src/widgets/progress_tile.rs:173-182 | specified by ViewClasses: "icon", the attention class, and "active" exactly while active |
| ProgressTile.BarClasses | src/widgets/progress_tile.rs:173-182 | specified by ViewClasses: the attention class, and "active" exactly while active |
| BatteryService.StatusRoundTrip | src/services/battery.rs:116-122 | each known status word maps back to its status, and any other trimmed contents to `Unknown` |
| BatteryService.FirstBatteryShift | src/services/battery.rs:89-99 | past a readable non-battery entry the first battery moves down by one |
| BatteryService.FindBatteryFirst | src/services/battery.rs:85-102 | the battery found is the path of the first entry whose type reads "Battery", every earlier entry being readable and not a battery |
| BatteryService.DetectBatteryLoop | src/services/battery.rs:85-102 | the directory walk returns the detection result: an unlistable directory or an unreadable entry fails, the first battery wins, none found fails |
| BatteryService.TruncToI32 | src/services/battery.rs:157 | the `as i32` cast stays in the 32-bit range and rounds toward zero inside it |
| BatteryService.TimeRemainingRules | src/services/battery.rs:130-174 | only charging and discharging have an estimate; without usable energy files the estimate is the whole minutes of 8 hours times the charge to empty or 2 hours times the missing charge to full |
| BatteryService.FormatHoursRoundTrip | src/services/battery.rs:241-245 | a count of an hour or more formats as "{h}h {m}m" and reads back |
| BatteryService.FormatMinutesRoundTrip | src/services/battery.rs:246-247 | a count under an hour formats as "{m}m" and reads back |
| BatteryService.FormatRoundTrip | src/services/battery.rs:235-249 | any non-negative count reads back from its text; exactly the negative counts show "Unknown" |
| BatteryService.CriticalIsLow | src/services/battery.rs:227-233 | a critical battery is also low, and neither holds while charging |
| BatteryService.ReadBatteryState | src/services/battery.rs:104-128 | a reading exists exactly when both the capacity and the status file can be read |
| BatteryService.BatteryServiceObject.constructor | src/services/battery.rs:59-81 | the service is available iff a battery is found, and then takes the first reading if there is one; otherwise the properties keep their defaults |
| BatteryService.BatteryServiceObject.Poll | src/services/battery.rs:180-199 | a failed read changes nothing; otherwise the percentage moves only by more than 0.01 and stays within 0.01 of the reading, and charging, minutes and status follow it |
| BatteryService.StatusText | src/services/battery.rs:116-122 | specified by StatusRoundTrip: the word for each status, which the status match reads back as that status |
| BatteryService.StatusFrom | src/services/battery.rs:116-122 | specified by StatusRoundTrip: the four known trimmed words give their statuses and anything else gives `Unknown` |
| BatteryService.FindBattery | src/services/battery.rs:89-101 | specified by FindBatteryFirst: the path of the first entry whose type reads "Battery", every entry before it readable and not a battery |
| BatteryService.DetectBattery | src/services/battery.rs:85-102 | specified by FindBatteryFirst and DetectBatteryLoop: an error for an unlistable directory, otherwise the first battery |
| BatteryService.EnergyEstimate | src/services/battery.rs:141-158 | specified through TimeRemaining by TimeRemainingRules: -1 for a status other than charging and discharging; otherwise the hours to full or to empty as whole minutes cast by TruncToI32 |
| BatteryService.TimeRemaining | src/services/battery.rs:130-174 | specified by TimeRemainingRules: -1 unless charging or discharging; without usable energy files at most 480 minutes to empty and 120 to full, the whole minutes of the linear estimate |
| BatteryService.FormatTimeRemaining | src/services/battery.rs:235-249 | specified by FormatHoursRoundTrip, FormatMinutesRoundTrip and FormatRoundTrip: "{h}h {m}m" or "{m}m" that reads back as the count, and "Unknown" exactly for negative counts |
| BatteryService.ParseTimeRemaining | src/services/battery.rs:235-249 | specified by FormatRoundTrip: the inverse of the tile's format, reading nothing from "Unknown" |
| BatteryService.IsLow | src/services/battery.rs:227-229 | specified by CriticalIsLow: under 15 % and not charging, implied by critical |
| BatteryService.IsCritical | src/services/battery.rs:231-233 | specified by CriticalIsLow: under 5 % and not charging, never while charging |
| BatteryWorker.SameEstimateAsService | src/services/battery_worker.rs:110-154 | the worker's estimate on the 0 to 100 scale equals the service's estimate on the fraction |
| BatteryWorker.ReadBatteryState | src/services/battery_worker.rs:72-108 | no battery gives the default data; with a battery the read succeeds iff capacity parses as a whole number and the status can be read, and then carries them, available, with the estimate |
| BatteryWorker.StepSendsLast | src/services/battery_worker.rs:189-219 | whatever is sent becomes the last data, nothing changes when nothing is sent, and data equal to the last is never sent |
| BatteryWorker.ErrorOnceSent | src/services/battery_worker.rs:205-215 | a failed read leaves the last data unavailable, is reported iff the last data was available, and a second failure in a row sends nothing |
| BatteryWorker.NoBatterySilent | src/services/battery_worker.rs:73-78 | without a battery the worker never sends anything |
| BatteryWorker.FirstReadSent | src/services/battery_worker.rs:30-39 | with a battery the first successful read is always sent, as the starting data is unavailable |
| BatteryWorker.BatteryWorkerModel.constructor | src/services/battery_worker.rs:162-187 | the battery path is the detection result if it succeeded, and the last data starts as the default |
| BatteryWorker.BatteryWorkerModel.Update | src/services/battery_worker.rs:189-219 | the new last data and what is sent are those of one polling step |
| BatteryWorker.TimeRemaining | src/services/battery_worker.rs:110-154 | specified by SameEstimateAsService: the service's estimate for the same charge read as a fraction of 100 |
| BatteryWorker.ShouldUpdate | src/services/battery_worker.rs:195-198 | specified through Step by StepSendsLast: data equal to the last data sent never counts as a change |
| BatteryWorker.Step | src/services/battery_worker.rs:189-219 | specified by StepSendsLast, ErrorOnceSent, NoBatterySilent and FirstReadSent: what is sent becomes the last data; a failed read is reported once; no battery sends nothing; the first good read is sent |
| BatteryTile.WithBatteryClass | src/tiles/battery.rs:84-95 | the three battery classes are cleared and the chosen one, if any, added, every other class kept |
| BatteryTile.IconListsDisjoint | src/utils/icons.rs:20-23 | the charging glyphs and the plain battery glyphs share no entry |
| BatteryTile.ViewRules | src/tiles/battery.rs:39-95 | the charging icon list is used iff charging; the status word is Charging before Critical before Low; attention is Alarm when critical, Warning when low, Normal when charging, else Dim; the battery class agrees with the status word |
| BatteryTile.PrimaryText | src/tiles/battery.rs:53 | the primary text is the whole number of percent, rounded down, followed by "%" |
| BatteryTile.BatteryWidget.constructor | src/tiles/battery.rs:13-122 | the tile is visible iff the service is available, and an available service is displayed at once |
| BatteryTile.BatteryWidget.UpdateDisplay | src/tiles/battery.rs:33-97 | the tile shows the view for the charge and charging flag, keeps its non-battery classes and its visibility |
| BatteryTile.BatteryWidget.ShowView | src/tiles/battery.rs:50-95 | the tile shows exactly the given view, keeping its non-battery classes and its visibility |
| BatteryTile.View | src/tiles/battery.rs:39-95 | specified by ViewRules and PrimaryText: the charging icons iff charging, the status word and attention by charging, critical and low in that order, and the whole percent rounded down followed by "%" |
| BatteryProfile.SlotIndex | src/battery/profile.rs:84-87 | a time of the week within range maps to one of the 336 slots |
| BatteryProfile.SlotIndexInjective | src/battery/profile.rs:84-87 | two times share a slot exactly when they fall in the same half-hour of the same day |
| BatteryProfile.SlotIndexExamples | src/battery/profile.rs:102-121 | Monday 00:00, 00:30, 01:00, 23:30, Tuesday 00:00 and Sunday 23:30 fall in slots 0, 1, 2, 47, 48 and 335 |
| BatteryProfile.EwmaBetween | src/battery/profile.rs:40-41 | for a factor in 0 to 1 the new average lies between the old one and the observation, its distance to the observation shrunk by 1 - alpha |
| BatteryProfile.Confidence | src/battery/profile.rs:67-71 | the confidence is the count over 50, capped at 1 |
| BatteryProfile.NewProfile | src/battery/profile.rs:28-34 | a new profile has 336 slots and counts |
| BatteryProfile.ObserveOnlyItsSlot | src/battery/profile.rs:37-43 | an observation moves only its slot's average and count, the count as a saturating 32-bit increment |
| BatteryProfile.ObserveRepeatedly | src/battery/profile.rs:37-43 | repeated observations keep the profile's shape and factor |
| BatteryProfile.ObserveRepeatedlyConverges | src/battery/profile.rs:37-43 | n equal observations shrink the slot's distance to the observation by (1 - alpha)^n and count up to the 32-bit maximum |
| BatteryProfile.ConfidenceExamples | src/battery/profile.rs:65-71 | a fresh slot has confidence 0, one with 25 samples one half, one with 50 samples 1 |
| BatteryProfile.UsageProfile.constructor | src/battery/profile.rs:28-34 | every slot starts at the default power with no samples |
| BatteryProfile.UsageProfile.Default | src/battery/profile.rs:90-96 | the default profile uses factor 0.1 and 10 W |
| BatteryProfile.UsageProfile.Update | src/battery/profile.rs:37-43 | the observation goes into the slot of the given time |
| BatteryProfile.UsageProfile.PowerAt | src/battery/profile.rs:46-63 | the power for a time is the average of its slot |
| BatteryProfile.UsageProfile.ConfidenceAt | src/battery/profile.rs:67-71 | the confidence for a time is that of its slot's count, between 0 and 1 |
| BatteryProfile.Ewma | src/battery/profile.rs:40-41 | specified by EwmaBetween and EwmaDistance: for a factor in 0 to 1 the new average lies between the old one and the observation, its distance to the observation scaled by 1 - alpha |
| BatteryProfile.Observe | src/battery/profile.rs:37-43 | specified by ObserveOnlyItsSlot: only the observed slot's average and count move, the profile stays well formed and the factor is kept |
| BatteryPersistence.ToPredictorAccepts | src/battery/persistence.rs:38-103 | a saved record is accepted exactly when all dimension and range checks pass, and then restores into the very same record |
| BatteryPersistence.SaveRestoreRoundTrip | src/battery/persistence.rs:24-103 | a well-shaped predictor survives saving and restoring unchanged; any other predictor is refused on restore |
| BatteryPersistence.NewProfileSaves | src/battery/persistence.rs:24-103 | a fresh profile with a factor in range beside a 12-feature model saves into a valid record |
| BatteryPersistence.FromPredictor | src/battery/persistence.rs:24-36 | specified by SaveRestoreRoundTrip: a well-shaped predictor saves into a record that restores to it unchanged |
| BatteryPersistence.ToPredictor | src/battery/persistence.rs:38-103 | specified by ToPredictorAccepts and SaveRestoreRoundTrip: accepted exactly when every check passes, giving back the saved predictor; an ill-shaped record is refused |
| BatterySysfs.Div | src/battery/sysfs.rs:13-19 | capacities divide exactly when their units agree, giving the ratio of the amounts |
| BatterySysfs.PowerWattsRules | src/battery/sysfs.rs:55-62 | the power is always present, never negative, and the same whether the current is positive or negative |
| BatterySysfs.PercentageRules | src/battery/sysfs.rs:66-70 | the percentage is missing exactly when the units differ; otherwise the ratio clamped to 0 to 1; a zero full capacity gives 1, or not-a-number when the present capacity is zero too |
| BatterySysfs.Examples | src/battery/sysfs.rs:165-193 | 12 V at 1.5 A is 18 W, and 3.25 Ah of 6.5 Ah is one half |
| BatterySysfs.ChargingStatusRules | src/battery/sysfs.rs:147-159 | the four known words map to their statuses; a missing file or any other word counts as discharging |
| BatterySysfs.FindBatteryPathFirst | src/battery/sysfs.rs:109-132 | the path found is that of the first battery directory; nothing is found only when no entry is one |
| BatterySysfs.ReadBatterySysfsRules | src/battery/sysfs.rs:76-106 | a reading exists exactly when the battery, current, voltage and both capacities are there; energy is preferred separately for "now" and "full", so a mixed pair has no percentage |
| BatterySysfs.PowerWatts | src/battery/sysfs.rs:55-62 | specified by PowerWattsRules and Examples: always present, never negative, the same for a charging or discharging current; 12 V at 1.5 A is 18 W |
| BatterySysfs.Percentage | src/battery/sysfs.rs:66-70 | specified by PercentageRules and Examples: none when the units differ, otherwise the ratio clamped to 0 to 1; 3.25 Ah of 6.5 Ah is one half |
| BatterySysfs.ChargingStatusFrom | src/battery/sysfs.rs:147-159 | specified by ChargingStatusRules: the four known trimmed words give their statuses; a missing file or any other word is discharging |
| BatterySysfs.FindBatteryPath | src/battery/sysfs.rs:113-131 | specified by FindBatteryPathFirst: the path of the first battery directory, none only when no entry is one |
| BatterySysfs.DetectBatteryPath | src/battery/sysfs.rs:109-132 | a path exactly when the directory lists and some entry is a battery directory, and then that entry's path |
| BatterySysfs.ReadBatterySysfs | src/battery/sysfs.rs:76-106 | specified by ReadBatterySysfsRules: a reading exactly when battery, current, voltage and both capacities are there, energy winning over charge separately for "now" and "full" |
| Brightness.ReduceRules | src/brightness.rs:19-26 | the state always becomes the input; a change is reported iff the old state was not an equal value; repeating a non-NaN input reports nothing; a NaN input is always a change |
| Brightness.ReduceAllLast | src/brightness.rs:19-26 | after a run of inputs the state is the last input, or unchanged when there was none |
| Brightness.ReduceAllAppend | src/brightness.rs:19-26 | reducing two runs of inputs one after the other is reducing their concatenation |
| Brightness.BrightnessState.constructor | src/brightness.rs:14-17 | nothing is known at first |
| Brightness.BrightnessState.Reduce | src/brightness.rs:19-26 | the new state and the change flag are those of one reduction |
| Brightness.DetectInterface | src/brightness.rs:90-99 | the interface is found exactly when the directory can be listed, is not empty and its first entry can be read |
| Brightness.ReadMaxBrightness | src/brightness.rs:101-106 | the maximum is read exactly when the file can be read and its trimmed contents parse as a `u32` |
| Brightness.ReadFraction | src/brightness.rs:108-113 | the read succeeds exactly when the file parses as a `u32`, and gives the raw value over the maximum |
| Brightness.FractionRules | src/brightness.rs:112 | a positive maximum gives a finite fraction, within 0 to 1 for a raw value up to it; a zero maximum gives no finite fraction |
| Brightness.StartWatcher | src/brightness.rs:29-88 | the state ends as the reduction of every fraction the watcher sends: the first read, then one per event whose read succeeds |
| Brightness.WatchEvents | src/brightness.rs:70-87 | each event's successful read is sent in order, failed reads skipped |
| Brightness.SuccessfulReadsAppend | src/brightness.rs:74-79 | one more event adds its fraction to the end exactly when its read succeeds |
| Brightness.WatcherEndsAtLastRead | src/brightness.rs:29-88 | something is sent iff all three start-up reads succeed, and the state then ends at the last fraction sent; otherwise it is unchanged |
| Brightness.Reduced | src/brightness.rs:19-26 | specified by ReduceRules: the state becomes the input, and a change is reported exactly when the old state was not equal to it |
| Brightness.ReduceAll | src/brightness.rs:19-26 | specified by ReduceAllLast and ReduceAllAppend: the state ends at the last value sent, or as it was when nothing is sent, and runs of inputs reduce one after the other |
| Brightness.SuccessfulReads | src/brightness.rs:70-87 | specified by SuccessfulReadsAppend and WatchEvents: one fraction per successful event read, in order |
| Brightness.Sent | src/brightness.rs:29-88 | specified by SentAfterFirstRead and WatcherEndsAtLastRead: nothing unless the interface, maximum and first read succeed; then the first fraction and each successful event read |
| BrightnessTileRelm4.ScrollTarget | src/tiles/brightness_relm4.rs:104-107 | the requested level is the level plus five points per scroll unit, clamped to 0 to 1 |
| BrightnessTileRelm4.IconRules | src/tiles/brightness_relm4.rs:117-129 | unavailable gives the generic icon; above 0.8 high, at most 0.4 low, else medium; a brighter level never gets a dimmer icon |
| BrightnessTileRelm4.TextRules | src/tiles/brightness_relm4.rs:131-137 | "N/A" when unavailable, otherwise the whole percent, rounded down, followed by "%" |
| BrightnessTileRelm4.BrightnessTile.constructor | src/tiles/brightness_relm4.rs:66-70 | the tile starts at level 0, unavailable |
| BrightnessTileRelm4.BrightnessTile.Update | src/tiles/brightness_relm4.rs:97-113 | a click is reported as "brightness"; a scroll asks for the clamped level without changing the local one; a service update sets level and availability |
| BrightnessTileRelm4.IconName | src/tiles/brightness_relm4.rs:117-129 | specified by IconRules: the generic icon when unavailable, otherwise high above 0.8, medium above 0.4 and low below, never dimmer for a brighter level |
| BrightnessTileRelm4.Text | src/tiles/brightness_relm4.rs:131-137 | specified by TextRules: "N/A" when unavailable, otherwise the whole percent rounded down, which reads back from the text |
| Bluetooth.StateOf | src/bluetooth.rs:27-33 | a state is there exactly when Bluetooth is available |
| Bluetooth.ConnectedCount | src/bluetooth.rs:181-189 | the recount never exceeds the number of tracked devices |
| Bluetooth.ReduceRules | src/bluetooth.rs:82-169 | unavailable ignores every event; powered and discovering set their flag and notify; other properties change nothing; a removal drops just that address; an addition tracks the device iff the adapter hands it out; a connection event notifies iff the device is tracked |
| Bluetooth.ReduceKeepsCountBounded | src/bluetooth.rs:82-189 | every event keeps the connected count at most the number of tracked devices |
| Bluetooth.InitRules | src/bluetooth.rs:39-80 | available exactly when the session and the adapter are; then the tracked devices are those that could be looked up, flags that fail to read are off, and the count is bounded |
| Bluetooth.CountConnected | src/bluetooth.rs:181-189 | the loop counts the tracked devices that report being connected |
| Bluetooth.BluetoothReducer.constructor | src/bluetooth.rs:39-80 | the reducer holds its initial value |
| Bluetooth.BluetoothReducer.Reduce | src/bluetooth.rs:82-169 | the new value and the notify flag are those of one reduction |
| Bluetooth.Reduced | src/bluetooth.rs:82-169 | specified by ReduceRules and ReduceKeepsCountBounded: unavailable ignores every event, powered and discovering set their flag, a removal drops just that address, an addition tracks a found device, and the connected count stays bounded |
| Bluetooth.Init | src/bluetooth.rs:39-80 | specified by InitRules: unavailable after a failed session or adapter; otherwise the devices that could be looked up, with the count bounded by them |
| BluetoothMenu.IconRules | src/bluetooth_menu.rs:226-233 | disabled exactly without a powered adapter; searching exactly when powered and discovering; connected when powered, not discovering, with a device connected |
| BluetoothMenu.StatusRules | src/bluetooth_menu.rs:235-246 | unavailable without a state, disabled when off, searching when discovering, then one device, n devices, or enabled |
| BluetoothMenu.SwitchActive | src/bluetooth_menu.rs:205-206 | the switch is on exactly when there is a powered adapter |
| BluetoothMenu.DeviceRow.constructor | src/bluetooth_menu.rs:283-302 | a row starts with no name and not connected |
| BluetoothMenu.DeviceRow.Update | src/bluetooth_menu.rs:304-319 | a click asks to disconnect a connected device and to connect any other, changing nothing; an info update stores name and connection |
| BluetoothMenu.DeviceRow.Label | src/bluetooth_menu.rs:365-374 | the row shows the device name, or its address when it has none |
| BluetoothMenu.ClickFlipsConnection | src/bluetooth_menu.rs:54-59 | clicking a tracked device's row asks that device to flip its connection |
| BluetoothMenu.BluetoothMenuModel.constructor | src/bluetooth_menu.rs:61-64 | the menu starts from the shared state with no rows |
| BluetoothMenu.BluetoothMenuModel.Update | src/bluetooth_menu.rs:148-196 | a state update replaces the state and rebuilds one row per tracked device, without repeats; other messages keep the rows and produce the request for the current state |
| BluetoothMenu.GetIcon | src/bluetooth_menu.rs:226-233 | specified by IconRules: disabled exactly without a powered adapter; searching wins over connected, which wins over regular |
| BluetoothMenu.StatusText | src/bluetooth_menu.rs:235-246 | specified by StatusRules: "unavailable" without a state, "disabled" when powered off, searching when discovering, otherwise by the connected count |
| BluetoothMenu.CommandFor | src/bluetooth_menu.rs:148-196 | specified by ClickFlipsConnection: clicking a tracked device's row asks that device to flip its connection |
| BluetoothMenu.Forward | src/bluetooth_menu.rs:54-59 | specified by ClickFlipsConnection: a row's connect and disconnect outputs become the menu's connect and disconnect messages |
| BluetoothTile.DeviceName | src/tiles/bluetooth.rs:119-129 | a name is found only on a "Device " line and is non-empty and trimmed |
| BluetoothTile.TrimIdempotent | src/tiles/bluetooth.rs:125 | trimming twice is trimming once |
| BluetoothTile.TrimOfTrimmed | src/tiles/bluetooth.rs:125 | a text with no whitespace at either end is its own trim |
| BluetoothTile.DeviceNameOfLine | src/tiles/bluetooth.rs:119-129 | on "Device <address> <name>" with a space-free address, the name found is the trimmed name unless it is empty |
| BluetoothTile.DevicesIn | src/tiles/bluetooth.rs:118-131 | no more names than lines, each non-empty |
| BluetoothTile.NameOf | src/tiles/bluetooth.rs:119-129 | one line gives at most one non-empty name |
| BluetoothTile.DevicesInAppend | src/tiles/bluetooth.rs:118-131 | a further line adds its name, if any, after the earlier names |
| BluetoothTile.DevicesInPrefix | src/tiles/bluetooth.rs:118-131 | reading one more line extends the names by that line's name |
| BluetoothTile.CheckStatusAsWritten | src/tiles/bluetooth.rs:98-150 | the status as written, where the service fallback also runs when `bluetoothctl` reported the adapter off |
| BluetoothTile.PoweredOffShownOn | src/tiles/bluetooth.rs:136-147 | "Powered: no" with an active service yields enabled with no devices, shown as "On" |
| BluetoothTile.ReportsOff | src/tiles/bluetooth.rs:106 | "Powered: no" does not count as powered |
| BluetoothTile.ServiceRunning | src/tiles/bluetooth.rs:142-145 | "active" with a newline counts as a running service |
| BluetoothTile.CheckStatus | src/tiles/bluetooth.rs:98-150 | the corrected status: the service check decides only when `bluetoothctl show` failed |
| BluetoothTile.CheckStatusRules | src/tiles/bluetooth.rs:98-150 | a working `bluetoothctl` decides alone, a failed one defers to the service; devices imply enabled; the two versions differ exactly when the adapter was reported off and the service is active |
| BluetoothTile.CheckBluetoothStatus | src/tiles/bluetooth.rs:98-150 | the status check with its line loop gives the corrected status |
| BluetoothTile.ReadDeviceLines | src/tiles/bluetooth.rs:118-131 | the loop keeps exactly the names found on the lines, in order |
| BluetoothTile.WithStatusClass | src/tiles/bluetooth.rs:84-95 | the three status classes are replaced by the chosen one, every other class kept |
| BluetoothTile.ViewRules | src/tiles/bluetooth.rs:35-96 | connected icon, Normal attention, the first device as secondary text and the connected class go with a non-empty device list; "On" means enabled with none, "Off" means disabled |
| BluetoothTile.BluetoothWidget.constructor | src/tiles/bluetooth.rs:12-33 | a visible tile with the "bluetooth" class, showing the first run of the corrected `CheckStatus` of Findings row src/tiles/bluetooth.rs:136-147 (as written "Powered: no" with an active service shows "On", see `CheckStatusAsWritten`) |
| BluetoothTile.BluetoothWidget.Refresh | src/tiles/bluetooth.rs:27-30 | each poll shows the view of a fresh run of the corrected `CheckStatus` of Findings row src/tiles/bluetooth.rs:136-147 (see `CheckStatusAsWritten` for the code as written), keeping visibility and other classes |
| BluetoothTile.BluetoothWidget.UpdateBluetoothStatus | src/tiles/bluetooth.rs:35-96 | the tile shows the view of the status, keeping visibility and other classes |
| BluetoothTile.BluetoothWidget.ShowView | src/tiles/bluetooth.rs:47-95 | the tile shows exactly the given view |
| BluetoothTile.ShowsPowered | src/tiles/bluetooth.rs:103-108 | specified by CheckStatusRules and ReportsOff: a working `bluetoothctl` decides alone, enabled iff it prints "Powered: yes" |
| BluetoothTile.ServiceActive | src/tiles/bluetooth.rs:136-147 | specified by CheckStatusRules and ServiceRunning: without `bluetoothctl` the trimmed `systemctl` output "active" decides |
| BluetoothTile.ConnectedDevices | src/tiles/bluetooth.rs:110-133 | specified by CheckStatusRules and ReadDeviceLines: devices are listed only for a powered adapter, one name per "Device" line |
| BluetoothTile.View | src/tiles/bluetooth.rs:35-96 | specified by ViewRules and PoweredOffShownOn: the connected icon, Normal attention, first device name and "connected" class go together with a non-empty device list |
| AudioService.DetectDefaultSink | src/services/audio.rs:64-90 | a run that cannot start is an error; a non-blank default answer is the sink, trimmed; any sink found is non-empty with no whitespace at either end |
| AudioService.SinkFallback | src/services/audio.rs:75-89 | without a usable default the sink is the second field of the first listed line, and there is none when the listing fails, is empty or that line has fewer than two fields |
| AudioService.ParseVolume | src/services/audio.rs:98-115 | an output with no '%' reads as volume 0 |
| AudioService.ParseVolumeOf | src/services/audio.rs:102-106 | an output whose first '%' follows a space and a whole percent reads as that percent over 100 |
| AudioService.ReadCurrentState | src/services/audio.rs:92-130 | the read succeeds exactly when both runs start; muted iff the mute run succeeded and said "yes"; a failed volume run reads 0, a successful one its parsed volume |
| AudioService.SetVolumeValue | src/services/audio.rs:167-177 | setting a volume always asks for a sink volume |
| AudioService.SetVolumeReadsBack | src/services/audio.rs:167-177 | the volume asked for reads back through the poll's parser as the clamped volume rounded down to a whole percent, within 0.01 of it |
| AudioService.SetMuteState | src/services/audio.rs:208-214 | the mute argument is "1" exactly when muting |
| AudioService.Outcome | src/services/audio.rs:180-188 | a request fails unless `pactl` exited successfully |
| AudioService.PollAsWritten | src/services/audio.rs:136-147 | the poll as written, which hands an out-of-range volume that moved by more than 0.01 to the range-checked property and aborts |
| AudioService.OverAmplifiedPollAborts | src/services/audio.rs:136-147 | a sink at 150% reads as 1.5 and aborts the poll |
| AudioService.Poll | src/services/audio.rs:136-147 | the corrected poll: a failed read changes nothing; the volume stays in range and within 0.01 of the clamped reading; the mute state follows the reading |
| AudioService.PollAgrees | src/services/audio.rs:136-147 | for readings in range the poll as written equals the corrected poll and never aborts |
| AudioService.AudioServiceObject.constructor | src/services/audio.rs:40-60 | available exactly when a sink is found, storing the first reading as it is, past the property's range check (a sink at 150% starts at 1.5); otherwise volume 0, not muted |
| AudioService.OverAmplifiedStartKept | src/services/audio.rs:52-54 | a sink already at 150% at start-up is stored as 1.5 and the poll as written keeps it there, while the corrected poll brings it to 1.0 |
| AudioService.AudioServiceObject.PollOnce | src/services/audio.rs:136-147 | each half-second poll applies the corrected poll of Findings row src/services/audio.rs:139-140 (see `PollAsWritten`) and keeps a volume that was in range in range |
| VolumeTile.VolumeIconRules | src/tiles/volume.rs:47-60 | the mute glyph shows exactly when muted; otherwise the silent glyph at exactly 0, low below one half, high from one half on |
| VolumeTile.VolumeWidget.constructor | src/tiles/volume.rs:13-95 | the box is visible and filled exactly when audio is available, then showing the icon and volume, brightened with one fade armed |
| VolumeTile.VolumeWidget.UpdateIcon | src/tiles/volume.rs:47-77 | the icon follows the state, the widgets brighten and one more fade is armed |
| VolumeTile.VolumeWidget.ServiceChanged | src/tiles/volume.rs:40-85 | a volume or mute change moves the bar to the volume and updates the icon |
| VolumeTile.VolumeWidget.FadeFired | src/tiles/volume.rs:69-76 | a firing fade dims the widgets even when a later fade is still armed |
| VolumeTile.VolumeIcon | src/tiles/volume.rs:47-60 | specified by VolumeIconRules: the mute glyph exactly when muted; otherwise silent at exactly 0, low below one half and high from one half on |
| PulseAudioTile.GetIcon | src/tiles/pulseaudio.rs:72-80 | a level icon is always one of the volume glyphs |
| PulseAudioTile.Progress | src/tiles/pulseaudio.rs:88-93 | the progress is in 0 to 1, 0 when muted, and the volume over 100 when that is in range |
| PulseAudioTile.IconRules | src/tiles/pulseaudio.rs:72-80 | muted icon exactly without a sink or when muted; zero icon exactly for an unmuted sink at 0; 100% or more shows the loudest glyph; a louder volume never shows a quieter glyph |
| PulseAudioTile.PulseAudioTileModel.constructor | src/tiles/pulseaudio.rs:28-57 | a hidden box around a dim progress tile with no icon and progress 0 |
| PulseAudioTile.PulseAudioTileModel.Handle | src/tiles/pulseaudio.rs:59-94 | the progress tile panics exactly when its armed fade timer already fired (see `ProgressTile.ProgressTileModel.Activate`); otherwise it shows the icon and progress of the shared state and brightens, and the box is visible exactly when there is a default sink |
| StatusNotifierItem.StatusFrom | src/tray/status_notifier/item.rs:131-139 | "Active" and "NeedsAttention" decode to themselves, and every other string to the default `Passive` |
| StatusNotifierItem.StatusRoundTrip | src/tray/status_notifier/item.rs:7-13 | each status's name decodes back to it |
| StatusNotifierItem.CategoryFrom | src/tray/status_notifier/item.rs:150-160 | a named category decodes only from its own name; every other string gives `Other` |
| StatusNotifierItem.CategoryRoundTrip | src/tray/status_notifier/item.rs:150-160 | each category's name decodes back to it |
| StatusNotifierItem.StatusTryFrom | src/tray/status_notifier/item.rs:122-129 | decoding a bus value fails exactly when it is not a string, and otherwise decodes the string |
| StatusNotifierItem.CategoryTryFrom | src/tray/status_notifier/item.rs:141-148 | decoding a bus value fails exactly when it is not a string, and otherwise decodes the string |
| StatusNotifierItem.ServiceAddress | src/tray/status_notifier/host.rs:82-89 | a service starting with '/' is a path on the unknown bus; any other is a bus name at the well-known path |
| StatusNotifierItem.ServiceAddressRules | src/tray/status_notifier/host.rs:82-89 | the path always starts with '/', the service is kept whole on one side, and "unknown" and "/StatusNotifierItem" resolve to the same address |
| StatusNotifierItem.StatusName | src/tray/status_notifier/item.rs:7-13 | specified by StatusRoundTrip: each status's name decodes back to it |
| StatusNotifierItem.CategoryName | src/tray/status_notifier/item.rs:15-22 | specified by CategoryRoundTrip: each category's name decodes back to it |
| TrayTypes.TrayState.constructor | src/services/tray.rs:21-26 | the tray state starts empty and collapsed |
| StatusNotifierHost.Host.constructor | src/tray/status_notifier/host.rs:21-27 | a new host has its names and no items |
| StatusNotifierHost.Host.RegisterItem | src/tray/status_notifier/host.rs:30-53 | registration fails, with the bus error in the message, exactly when the session bus cannot be reached, and never changes the item table |
| StatusNotifierHost.Host.ItemRegistered | src/tray/status_notifier/host.rs:79-92 | the announced service is resolved to its address and registered there, succeeding exactly when the bus is reachable |
| StatusNotifierHost.Host.UnregisterItem | src/tray/status_notifier/host.rs:56-67 | only the entry for the service is removed, if any, and the call always succeeds |
| StatusNotifierHost.Host.ItemUnregistered | src/tray/status_notifier/host.rs:95-98 | the service is passed on unchanged: its entry is gone and the table never grows |
| StatusNotifierHost.Host.GetItems | src/tray/status_notifier/host.rs:70-73 | the host answers with no items |
| StatusNotifierHost.Host.HostInfo | src/tray/status_notifier/host.rs:101-106 | the info names the host's bus name and object path after a fixed prefix |
| StatusNotifierHost.Host.ProtocolVersion | src/tray/status_notifier/host.rs:109-111 | the protocol version is 0 |
| StatusNotifierHost.Host.IsHostRegistered | src/tray/status_notifier/host.rs:114-116 | the host always reports that it is registered |
| StatusNotifierHost.HostInfoReadsBack | src/tray/status_notifier/host.rs:101-106 | for a bus name without ':' the name and the path read back from the info by splitting at the first ':' |
| StatusNotifierHost.TableOnlyShrinks | src/tray/status_notifier/host.rs:30-67 | over any series of removals the table only loses entries, keeps the rest unchanged and holds none of the removed services |
| StatusNotifierHost.RemoveAll | src/tray/status_notifier/host.rs:56-67 | specified by TableOnlyShrinks: the table only loses entries, keeping the rest unchanged and none of the removed services |
| StatusNotifierWatcher.Watcher.constructor | src/tray/status_notifier/watcher.rs:15-20 | a new watcher has no registered items |
| StatusNotifierWatcher.Watcher.UpdateTrayState | src/tray/status_notifier/watcher.rs:22-30 | the published items are the registered items' values in some key order, each once, and the expanded flag is untouched |
| StatusNotifierWatcher.Watcher.RegisteredItems | src/tray/status_notifier/watcher.rs:43-46 | exactly the registered services, each once |
| StatusNotifierWatcher.Watcher.RegisterItem | src/tray/status_notifier/watcher.rs:48-69 | the service is resolved to its address, the table stays as it was, the tray is republished from it and the call succeeds |
| StatusNotifierWatcher.Watcher.RegisterHost | src/tray/status_notifier/watcher.rs:71-74 | registering a host does nothing and succeeds |
| StatusNotifierWatcher.Watcher.IsHostRegistered | src/tray/status_notifier/watcher.rs:35-37 | a host is always reported as registered |
| StatusNotifierWatcher.Watcher.ProtocolVersion | src/tray/status_notifier/watcher.rs:39-41 | the protocol version is 0 |
| TrayTile.ItemAddress | src/tiles/tray.rs:212-218 | a service without '/' is a bus name at the standard item path; otherwise it splits at its first '/' into a bus name without '/' and a path starting with '/' |
| TrayTile.AddressRoundTrip | src/tiles/tray.rs:212-218 | splitting a bus name joined to a path recovers both |
| TrayTile.BarePathHasNoBusName | src/tiles/tray.rs:212-218 | a service that is a bare object path splits to an empty bus name |
| TrayTile.OrEmpty | src/tiles/tray.rs:237-240 | a failed property read gives the empty string, a successful one its value |
| TrayTile.IconFor | src/tiles/tray.rs:259-263 | the icon chosen is the item's own, or the generic one when it has none, and is never empty |
| TrayTile.ButtonAsWritten | src/tiles/tray.rs:252-274 | as written the appended button shows no icon, because the image already belongs to the menu button; it keeps the item's tooltip |
| TrayTile.ButtonFor | src/tiles/tray.rs:252-274 | the corrected half of Findings row src/tiles/tray.rs:266-270: the button shows the item's icon, or the generic icon when it has none, and the item's tooltip |
| TrayTile.ButtonLosesIcon | src/tiles/tray.rs:266-270 | the button as written is blank where the corrected one shows the chosen icon, with the same tooltip |
| TrayTile.ToggleIcon | src/tiles/tray.rs:129-133 | the toggle points right exactly when the row is expanded |
| TrayTile.AddOutcomeAsWritten | src/tiles/tray.rs:206-234 | (as written) adding panics on an empty bus name, fails on a proxy that cannot be built, and otherwise adds the entry |
| TrayTile.BarePathPanics | src/tiles/tray.rs:213-226 | a bare object path makes adding panic whatever the proxy answers |
| TrayTile.AddedEntry | src/tiles/tray.rs:206-292 | an entry is added exactly when the bus name is non-empty and the proxy answers, and it is the one the code as written would add |
| TrayTile.AddedAllContents | src/tiles/tray.rs:165-170 | after adding the registered services every reachable one holds what its proxy answered, and nothing beyond the old table and the services appears |
| TrayTile.SysTray.constructor | src/tiles/tray.rs:76-117 | the tray starts collapsed with no items and no buttons |
| TrayTile.SysTray.Toggle | src/tiles/tray.rs:119-137 | a click flips the expanded flag, the revealer and the toggle's icon together |
| TrayTile.SysTray.AddTrayItem | src/tiles/tray.rs:206-292 | with the corrections of Findings rows src/tiles/tray.rs:213-226 (`AddedEntry`) and src/tiles/tray.rs:266-270 (`ButtonFor`): a reachable item with a non-empty bus name is stored under its service with a button showing its icon appended; otherwise nothing changes |
| TrayTile.SysTray.RemoveTrayItem | src/tiles/tray.rs:294-311 | only the service's entry is dropped; the row of buttons is left as it was |
| TrayTile.SysTray.AddAll | src/tiles/tray.rs:165-170 | the table becomes the old table with the listed services added one after the other |
| TrayTile.SysTray.SetupWatcher | src/tiles/tray.rs:150-204 | setup fails exactly when the session bus is missing or a signal stream cannot be opened after the watcher is found; the registered items are added only when the watcher answers |
| TrayTile.ItemFrom | src/tiles/tray.rs:236-250 | specified by AddedAllContents: every reachable service's entry holds what its proxy answered |
| TrayTile.AddedAll | src/tiles/tray.rs:165-170 | specified by AddedAllContents, AddedAllLast and AddedAllStep: services are added in order, each reachable one with its proxy's answers, and nothing else is added |
| CountLabel.LabelFor | src/tiles/tray_relm4.rs:46-55 | the label is visible exactly for a positive count, empty exactly for zero, and otherwise the count in decimal digits |
| CountLabel.CountLabelReadsBack | src/tiles/notifications_relm4.rs:49-58 | the label's text parses back as the count it shows |
| CountLabel.CountLabelInjective | src/tiles/notifications_relm4.rs:49-58 | different counts show different labels |
| TrayRelm4.TrayWidget.constructor | src/tiles/tray_relm4.rs:62-75 | the tile starts hidden with a count of zero |
| TrayRelm4.TrayWidget.Update | src/tiles/tray_relm4.rs:77-88 | a click reports "tray" and keeps the count; a new count replaces the old one and the tile shows exactly when it is positive |
| TrayRelm4.TrayWidget.Count | src/tiles/tray_relm4.rs:46-55 | the count label is visible exactly when the tile is |
| NotificationsRelm4.NotificationIconFor | src/tiles/notifications_relm4.rs:95-101 | the "new" bell is shown exactly for a positive count |
| NotificationsRelm4.NotificationsWidget.constructor | src/tiles/notifications_relm4.rs:65-78 | the tile starts with no notifications |
| NotificationsRelm4.NotificationsWidget.Update | src/tiles/notifications_relm4.rs:80-91 | a click reports "notifications" and keeps the count; a new count replaces the old one |
| NotificationsRelm4.NotificationsWidget.Icon | src/tiles/notifications_relm4.rs:44 | the bell is the "new" one exactly when there are notifications |
| NotificationsRelm4.NotificationsWidget.Count | src/tiles/notifications_relm4.rs:49-58 | the count label is visible exactly when there are notifications |
| ClockFormat.Pad2 | src/services/clock.rs:55 | a two-digit field is exactly two digits denoting the number |
| ClockFormat.Pad2ReadsBack | src/services/clock.rs:55 | the number reads back from the field's two characters |
| ClockFormat.ZeroPad | src/services/clock.rs:101 | the padded numeral denotes the number, is at least as wide as asked, exactly that wide when the number fits, and the plain numeral when it does not |
| ClockFormat.WeekdayAbbrev | src/services/clock.rs:58 | `%a` is the first three letters of the weekday's full name |
| ClockFormat.MonthAbbrev | src/services/clock.rs:58 | `%b` is the first three letters of the month's full name |
| ClockFormat.AbbreviationsDistinct | src/services/clock.rs:58 | two dates share a weekday abbreviation exactly when they share the weekday, and a month abbreviation exactly when they share the month |
| ClockFormat.Hour12 | src/services/clock.rs:91 | the twelve-hour number is between 1 and 12 and agrees with the hour modulo 12 |
| ClockFormat.AmPm | src/services/clock.rs:91 | the marker is "AM" exactly before noon and "PM" exactly from noon |
| ClockFormat.TwelveHourReadsBack | src/services/clock.rs:89-92 | the twelve-hour number and the marker together give back the hour |
| ClockFormat.YearText | src/services/clock.rs:101 | a year from 0 to 9999 is four digits denoting it; a larger one is '+' and its digits, a negative one '-' and the digits of its magnitude |
| ClockFormat.WeekdayName | src/services/clock.rs:58 | the full weekday name, at least six letters, whose first three are `%a` (WeekdayAbbrev, AbbreviationsDistinct) |
| ClockFormat.MonthName | src/services/clock.rs:58 | the full month name, at least three letters, whose first three are `%b` (MonthAbbrev, AbbreviationsDistinct) |
| ClockService.TimeString | src/services/clock.rs:55 | the time string is "HH:MM" and the hour and minute read back from either side of the colon |
| ClockService.DateString | src/services/clock.rs:58 | the date string is the weekday and month abbreviations and the two-digit day, laid out as "Thu, Oct 15" |
| ClockService.Time12h | src/services/clock.rs:89-92 | the twelve-hour string is "II:MM" and the AM/PM marker, with the hour between 1 and 12 and the minute reading back |
| ClockService.Time12hReadsBack | src/services/clock.rs:89-92 | the hour of the day reads back from the twelve-hour string |
| ClockService.TimeWithSeconds | src/services/clock.rs:94-97 | the string is the "HH:MM" string followed by ':' and the two-digit second |
| ClockService.FullDate | src/services/clock.rs:99-102 | the string is the full weekday and month names, the two-digit day and the year, separated as in "Thursday, October 15, 2026" |
| ClockService.Clock.constructor | src/services/clock.rs:39-47 | construction publishes the time once |
| ClockService.Clock.UpdateTime | src/services/clock.rs:51-66 | the time string, date string, hour, minute and second all come from the same instant |
| ClockService.AmPmExclusive | src/services/clock.rs:104-110 | exactly one of AM and PM holds, and PM exactly when the `%p` marker says so |
| ClockService.UpdateConsistent | src/services/clock.rs:51-66 | after an update the hour and minute read back from the published time string |
| ClockTile.IconFor | src/tiles/clock.rs:136-140 | the icon is always one of the twelve clock faces |
| ClockTile.IconRules | src/tiles/clock.rs:7-20 | two times show the same face exactly when their hours agree modulo 12, and midnight and noon show twelve o'clock |
| ClockTile.DateText | src/tiles/clock.rs:146-148 | the date text is "MM/DD" with the month and day reading back |
| ClockTile.ClockWidget.constructor | src/tiles/clock.rs:81-104 | the tile starts showing the time it is given |
| ClockTile.ClockWidget.Update | src/tiles/clock.rs:106-115 | a click is reported and keeps the time; a time update replaces it and reports nothing |
| ClockTile.ClockWidget.Labels | src/tiles/clock.rs:136-148 | the labels are a clock face, the "HH:MM" string and the "MM/DD" text of the time shown |
| FloatValues.DivNat | src/brightness.rs:112 | dividing two unsigned integers gives their exact quotient when the divisor is positive, infinity for a positive amount over zero and not-a-number for zero over zero |
| RustText.NatToString | src/bluetooth_menu.rs:241 | `format!("{}")` of a count: non-empty decimal digits denoting the number, with no leading zero |
| RustText.IntToString | src/services/hyprland.rs:321 | `format!("{}")` of a signed id: non-empty, starting with '-' exactly for a negative value |
| RustText.ParseU32 | src/services/battery_worker.rs:85 | `parse::<u32>()`: a parsed value is within `u32` and comes from non-empty text |
| RustText.ParseU32RoundTrip | src/services/battery_worker.rs:85 | a `u32` rendered and parsed back is itself |
| RustText.ParseI32 | src/services/hyprland.rs:233 | `parse::<i32>()`: a parsed value is within `i32` and comes from non-empty text |
| RustText.ParseI32RoundTrip | src/services/hyprland.rs:233 | an `i32` rendered and parsed back is itself |
| RustText.ToU32 | src/tiles/brightness_relm4.rs:136 | `as u32`: saturates into the `u32` range, is the floor inside it, and 0 below 1 |
| RustText.RFindChar | src/services/audio.rs:104 | `rfind`: an index holding the character with none after it, and none exactly when the character is absent |
| RustText.ParseDecimal | src/services/audio.rs:106 | `parse::<f64>()` on plain decimals: a parsed value comes from non-empty text |
| RustText.ParseDecimalWhole | src/services/audio.rs:106 | a rendered whole number parses back to itself |
| RustText.RoundHalfEven | src/commands.rs:214 | the rounding of `{:.0}`: the result is within one half of the value |
| RustText.FormatNoDecimals | src/commands.rs:214 | `{:.0}`: non-empty, starting with '-' exactly for a negative value |
| RustText.FormatNoDecimalsWhole | src/commands.rs:214 | a whole number is printed as its numeral |
| RustText.Find | src/services/audio.rs:102 | `find`: the first index where the pattern matches, none exactly when it matches nowhere |
| RustText.SplitOnce | src/services/weather.rs:78-79 | `split_once`: the two parts joined by the separator give the text, the first part holds no earlier match, and none exactly when there is no match |
| RustText.SplitOnceJoin | src/services/hyprland.rs:230 | splitting text built around the first separator recovers its two parts |
| RustText.SplitOnceAfterPrefix | src/services/weather.rs:78-79 | when the separator's first character is not in the prefix, the split happens right after the prefix |
| RustText.SplitChar | src/tiles/weather.rs:342 | `split(c)`: one more piece than occurrences of `c`, none containing `c` |
| RustText.SplitCharJoin | src/tiles/weather.rs:342 | joining the pieces with `c` gives back the text |
| RustText.Lines | src/services/hyprland.rs:229 | `lines()`: no line holds a newline, and empty text has no lines |
| RustText.TrimStart | src/services/audio.rs:69 | `trim_start`: a suffix that drops only whitespace and starts with none |
| RustText.TrimEnd | src/services/audio.rs:69 | `trim_end`: a prefix that drops only whitespace and ends with none |
| RustText.Trim | src/services/audio.rs:69 | `trim`: empty or neither starting nor ending with whitespace |
| RustText.TrimKeepsTrimmed | src/tiles/bluetooth.rs:144 | text with no whitespace at either end is its own trim |
| RustText.TrimEmptyIffBlank | src/tiles/bluetooth.rs:144 | the trim is empty exactly for whitespace-only text |
| RustText.SplitWhitespace | src/tiles/weather.rs:334 | `split_whitespace()`: every piece is a non-empty run without whitespace |

## Left out

- D-Bus plumbing becomes inputs of the model. This covers zbus connections, proxies, object-server registration, signal emission and async streams (src/network/dbus.rs, and the proxy traits in src/tiles/tray.rs and src/tray/status_notifier/item.rs). Each answer is an `Option` or a flag.
- Processes spawned by the shell become inputs. These are `pactl`, `bluetoothctl`, `systemctl` and `curl`; each run is a failure or an exit status with its output.
- File reads become inputs: sysfs, the backlight files, the battery state file and the JSON text of the saved predictor.
- Clocks (`Local::now`, `SystemTime`) become parameters, and the model has no real time.
- GLib timers and `tokio` sleeps become tokens of pending timers. A re-entrant `sender.input` becomes a first-in first-out queue or a sequential call.
- Threads, mutexes and `relm4::spawn` are not modelled, and each handler runs to completion. `RefCell` cells are modelled only where their cloning or borrowing changes what the code does: the weather timer, the MPRIS click handler and the MPRIS player removal (see "## Findings").
- GTK widget construction, CSS, layout, layer-shell placement and drawing are not modelled, apart from the labels, classes and visibility each tile sets. Also outside the model:
  - the bar files;
  - the application bootstrap;
  - the style files;
  - src/analog_clock.rs;
  - the card widgets;
  - src/widgets/tray_item.rs;
  - src/tray/mod.rs.
- The floating-point learning code of the battery predictor (src/battery/model.rs, src/battery/features.rs, src/battery/predictor.rs) is not part of this model. Neither are the battery watcher and the CPU reader.
- The PulseAudio conversions against the library's `Volume` constants (src/services/pulseaudio.rs, src/pulseaudio.rs) are not part of this model.
- The system I/O of src/services/bluetooth.rs, src/services/brightness.rs and src/services/niri.rs is not part of this model.
- Configuration loading (src/settings.rs) is not part of this model.
- src/services/notifications.rs is not part of this model: it is a broken copy of the daemon and the worker.
- `f64` is modelled as exact reals. Finite values are not rounded to the nearest double, and the only infinity and not-a-number values are those of `FloatValues`.
- GLib property ranges are not modelled, except where a finding depends on them.
- The HashMap iteration order is any order that lists every key once (`MapOrder.IsKeyOrder`). The model does not fix one.
- Bus-name and object-path syntax is not checked beyond what the code itself tests.
- bluetooth_menu.rs relies on names that src/bluetooth.rs does not declare: `BLUETOOTH_STATE`, `devices()` and `get_device`. The menu is modelled over the `Bluetooth` state as if those names were its table of devices.
- The VOLUME_MUTED and VOLUME_ZERO names used by src/tiles/pulseaudio.rs are not declared in src/utils/icons.rs. They are fields given to the tile.
- The tray's pixmap icons, menus and tooltip widgets are not modelled. Clicking an item button calls the item's proxy, which is not modelled either.
- `StatusNotifierHost.Host.GetItems` returns no items because the host's `get_items` is itself unfinished.
- `TrayTile.SysTray.RemoveTrayItem` leaves the row of buttons unchanged because the source does not yet link a button to its service.
- `RustText.ParseDecimal` covers only plain decimal notation. Exponents, `inf` and `nan` are not parsed.
- `WeatherService.ParseTime12h` uses unbounded integers. In the source, `h += 12` on a `u32` can overflow for an absurd hour (src/services/weather.rs:83-85), and the model does not reproduce that overflow.
- `TileCommandIntegration` (src/commands/integration.rs:6-44) has no class of its own. Its handlers are single calls to the executor, and `CommandIntegration.TileScenario` covers them as a sequence of `Commands.ExecuteApp` and `Commands.UndoApp` steps.
- `MprisTile.TruncateText` requires `max > 0` for non-empty text. The source subtracts one from a `usize` and would underflow; it always passes 30.
- `WifiMenu.WifiMenuModel.Update` sends the literal placeholder "current_ssid" with a password, exactly as the source does.
- `BatteryService.ReadBatteryState` takes the capacity as already parsed into a number, or `None`. Reading and parsing the file is an input.
- `BluetoothTile.ViewRules` requires that a device list comes with an enabled adapter. Every status the status check computes meets this, as `CheckStatusRules` proves.
- Integer widths: `u8`, `u32` and `i32` casts and wrap-around are written out only where the source relies on them. These are the daemon's id counter, `as u32`/`as i32` casts, `usize` indices and the saturating confidence count.
- The inotify watch on the backlight is a sequence of events given as input.

## Findings

| source | as written | input that shows it | evidently intended | confidence | as-written member | corrected member |
|---|---|---|---|---|---|---|
| src/widgets/tile.rs:181-187 | `truncate` slices the text at byte `n`, which panics when byte `n` falls inside a multi-byte character | "x" followed by eight copies of U+F0599 (33 bytes) cut to 32 bytes | cut at the last character boundary at or before byte `n`, then add the ellipsis | not executed; high | TileWidget.TruncateAsWritten, TileWidget.TruncatePanicsInsideGlyph, TileWidget.GlyphTextPanics | TileWidget.Truncate, TileWidget.TruncateAgrees, TileWidget.Label.Show, TileWidget.Tile.UpdateDisplay |
| src/services/weather.rs:59-63 | after a successful fetch the loop `continue`s before the sleep, so it fetches again at once and the 600-second cadence is never used | any successful fetch | sleep 600 seconds after a success and back off only after failures | not executed; high | WeatherService.PollStepAsWritten, WeatherService.SuccessSkipsWait | WeatherService.PollStep, WeatherService.Poll |
| src/tiles/weather.rs:270-275 | the guard checks `current_condition` and `weather` but then indexes `astronomy[0]` unchecked | a report whose first day has an empty astronomy list | skip the update, as for the other empty lists | not executed; medium | WeatherTile.DisplayAsWritten, WeatherTile.EmptyAstronomyPanics | WeatherTile.Displayable, WeatherTile.Shown, WeatherTile.WeatherWidget.UpdateDisplay, WeatherTile.WeatherWidget.FetchCompleted |
| src/tiles/weather.rs:182-237 | the timer reads a clone of the `last_update` cell, so the value it reads stays `None` and every minute tick fetches again | a successful fetch, then a tick one minute later | fetch only when ten minutes have passed since the last success | not executed; medium | WeatherTile.TickFetchesAsWritten, WeatherTile.EveryTickFetchesAsWritten | WeatherTile.TickFetches, WeatherTile.RecentSuccessSuppressesFetch, WeatherTile.WeatherWidget.Tick |
| src/tiles/bluetooth.rs:136-147 | the `systemctl` fallback runs whenever the adapter is not enabled, even when `bluetoothctl` answered "Powered: no" | `bluetoothctl show` prints "Powered: no" and `systemctl is-active bluetooth` prints "active" | fall back only when `bluetoothctl` could not answer | not executed; medium | BluetoothTile.CheckStatusAsWritten, BluetoothTile.PoweredOffShownOn | BluetoothTile.CheckStatus, BluetoothTile.CheckStatusRules, BluetoothTile.BluetoothWidget.constructor, BluetoothTile.BluetoothWidget.Refresh |
| src/services/audio.rs:139-140 | the poll stores the parsed volume in a property declared with maximum 1.0 (line 18), and `pactl` reports volumes above 100%; the first reading (lines 52-54) is stored in the cell directly, so there it is kept out of range instead | a sink at 150%: "Volume: front-left: 98304 / 150% / 10.57 dB" | clamp the reading into the property's range before storing it | not executed; medium | AudioService.PollAsWritten, AudioService.OverAmplifiedPollAborts, AudioService.OverAmplifiedStartKept | AudioService.Poll, AudioService.PollAgrees, AudioService.AudioServiceObject.PollOnce |
| src/tiles/tray.rs:213-226 | a service given as a bare object path splits to an empty bus name, and `destination("").unwrap()` panics | the service "/org/ayatana/NotificationItem/applet" | treat an unusable bus name like a proxy that cannot be built, and skip the item | not executed; medium | TrayTile.AddOutcomeAsWritten, TrayTile.BarePathPanics | TrayTile.AddedEntry, TrayTile.SysTray.AddTrayItem |
| src/tiles/mpris.rs:310-318 | the `if let` keeps the shared borrow of `current_player` alive through its block, so the `borrow_mut` at line 314 or 317 panics with a `BorrowMutError` | one tracked player, which is current, loses its bus owner | switch to a remaining player, or clear the current player and hide the tile | not executed; high | MprisTile.RemoveAsWritten, MprisTile.RemovingOnlyPlayerPanics | MprisTile.MediaWidget.RemovePlayer |
| src/tiles/mpris.rs:145-152 | the click handler owns `RefCell::clone` copies of `current_player` and `players`, taken while they are empty, and the monitoring code writes its own separate copies (lines 171-172), so the handler never finds a player | a player is tracked and current, and the tile is clicked | toggle playback of the current player | not executed; high | MprisTile.ClickAsWritten, MprisTile.ClickNeverToggles | MprisTile.MediaWidget.Click, MprisTile.ClickTarget |
| src/tiles/tray.rs:266-270 | the image is made the child of the menu button first, and GTK refuses to make a widget that already has a parent the child of the button that is appended, so that button shows no icon | any item added to the tray | give the image to the button that is appended only | not executed; medium | TrayTile.ButtonAsWritten, TrayTile.ButtonLosesIcon | TrayTile.ButtonFor, TrayTile.SysTray.AddTrayItem |
