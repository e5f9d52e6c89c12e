# IndustrySense: a Dafny model of the maintenance rules

IndustrySense is a factory-maintenance application. A Django REST backend keeps machines and their
sensor readings, work orders, and a spare-parts store. A Next.js frontend shows dashboards,
notifications and an AI chat assistant. This project models the deterministic rules at its core and
proves properties of them:

- **Scheduling and health** (`machine_models.dfy`, `machine_views.dfy`, `analytics_views.dfy`):
  - the next maintenance date;
  - the UNKNOWN / CRITICAL / RED / YELLOW / GREEN health chain;
  - the health-score tiers and the predicted date;
  - the machine dashboard, the bulk reading log and the analytics overview counts.
- **Work orders and inventory** (`maintenance_models.dfy`, `maintenance_views.dfy`):
  - start and complete as a state machine with side effects on the machine;
  - recording used parts, with the stock decrement on every usage save;
  - the parts cost, the low-stock filter and restocking.
- **Notifications** (`notifications.dfy`):
  - the five windows (overdue, due within 3 days, recent anomaly, low stock, pending order);
  - the fixed severities;
  - the in-place `sort(reverse=True)` on `(severity rank, timestamp)`;
  - the per-severity counts.
- **Frontend state** (the other files):
  - notification bell and notifications hook;
  - the chat route's history construction and error branches;
  - the chatbot's message list and streamed bot message;
  - the machine card's days and progress arithmetic;
  - the sign-up form's submit rule.

Modelling conventions:

- Model objects whose fields the code updates in place are classes: `Machine`, `WorkOrder`, `SparePart`,
  `SparePartUsage`, the notification bell, the notifications hook, the chatbot and the sign-up page.
  Query rows and messages are datatypes.
- Dates are integer day numbers. Backend instants are integer microseconds, the resolution of the
  `isoformat()` stamps, and frontend instants integer milliseconds. "today" and "now" are parameters.
  In `get_notifications`, which reads the clock for every note it stamps, the readings are a function
  `clock` from the note's position in the list.
- Money (`DecimalField`) is integer cents, labour hours a `real`.
- The outside world is a parameter:
  - the Gemini service is a function from history and prompt to an outcome;
  - an HTTP reply is a value;
  - the AI health score is an integer input.
- `wrappers.dfy`, `seqs.dfy` and `text.dfy` hold the `Option` type, the sequence `filter`, `map` and
  count with their lemmas, and decimal rendering and JavaScript `trim`.

What the code does, and does not do:

- The next maintenance date is only ever last date plus frequency. There is no fallback to the
  installation date, and nothing checks that the frequency is positive.
- Health status is the if-chain in `Machine.get_health_status`: UNKNOWN, CRITICAL, RED, YELLOW, GREEN.
  The code has no HEALTHY / WARNING / CRITICAL status evaluator driven by normal sensor ranges, so none
  is modelled. HEALTHY / WARNING / CRITICAL appear only as the AI health-score tiers.
- The calendar page reduces each day's events to the highest status: critical, then warning, then
  healthy (`frontend/app/(dashboard)/calendar/page.tsx:93-100`). That page is not modelled.

## Model

Some definitions have no row because they carry no contract of their own. They are the definitions the
contracts below are written in:
- `MachineModels.Machine.GetHealthStatus` is `get_health_status` (backend/machines/models.py:57-72). It applies
  `HealthStatusOf` to the machine's fields.
- `MaintenanceModels.IsLowStock` and `MaintenanceModels.SparePart.LowStock` are `is_low_stock`
  (backend/maintenance/models.py:89-91).
- `MachineViews.PredictedDays` and `MachineViews.TierMessage` are the tier branches of `health_score`
  (backend/machines/views.py:203-214).
- `MaintenanceViews.Step` and `MaintenanceViews.Run` are the status guards of `start_work` and `complete_work`
  (backend/maintenance/views.py:31,47).
- `MaintenanceModels.PartsCost` and `MaintenanceModels.LineCost` are the intended parts-cost sum
  (backend/maintenance/views.py:80-82).
- `MaintenanceModels.WorkOrder.TotalCost` is `total_cost` (backend/maintenance/models.py:61-63).

| member | source | states |
|---|---|---|
| MachineModels.HealthStatusOf | backend/machines/models.py:57-72 | UNKNOWN exactly when there is no next date, even with recent anomalies. With a next date it is CRITICAL exactly when a recent anomaly exists. Otherwise it is RED, YELLOW or GREEN exactly when the days until due are below 0, in 0..7, or above 7. |
| MachineModels.HealthWorsensOverTime | backend/machines/models.py:67-72 | Without anomalies, a later day never gives a less urgent status than an earlier one. |
| MachineModels.AnomalyMakesCritical | backend/machines/models.py:64-65 | Logging an anomalous reading now makes a machine that has a due date CRITICAL, whatever the date. This is the GREEN-then-CRITICAL sequence the API test expects. |
| MachineModels.NormalReadingKeepsStatus | backend/machines/models.py:64-65 | A normal reading never changes whether a recent anomaly exists, so it never changes the status. |
| MachineModels.StatusCountsPartition | backend/machines/models.py:7-12 | Every machine has exactly one of the four statuses, so the four counts add up to the number of machines. |
| MachineModels.Machine.constructor | backend/machines/models.py:24-28 | A new machine is OPERATIONAL with no readings and keeps the given frequency and dates. |
| MachineModels.Machine.CalculateNextMaintenance | backend/machines/models.py:52-55 | With a last date, the next date becomes last date plus frequency. Without one, the next date is unchanged. Nothing else changes. |
| MachineViews.DaysUntilMaintenance | backend/machines/views.py:152-154 | None exactly when there is no next date; otherwise today plus the result is the next date. |
| MachineViews.RedIffNegativeDays | backend/machines/models.py:67-68 | Without a recent anomaly, a machine is RED exactly when it has a next date before today. |
| MachineViews.PerformCreate | backend/machines/views.py:32-35 | A new machine gets last date plus frequency as its next date only when a last date is given and no next date is. Otherwise its dates are untouched. |
| MachineViews.HealthAction | backend/machines/views.py:149-167 | The reply carries the machine's health status and its days until maintenance. Its anomaly count counts every anomalous reading, not only recent ones. |
| MachineViews.OldAnomalyStillCounted | backend/machines/views.py:166 | An anomaly older than the 7-day window is still counted in `recent_anomalies` but does not make the machine CRITICAL. |
| MachineViews.TierOf | backend/machines/views.py:203-213 | CRITICAL exactly below 60, WARNING exactly for 60..79, HEALTHY exactly from 80. |
| MachineViews.TierMonotone | backend/machines/views.py:203-213 | A higher score never gives a worse tier. |
| MachineViews.HealthScore | backend/machines/views.py:169-233 | INSUFFICIENT_DATA with the count exactly when fewer than 10 readings fall in the last 30 days. Otherwise the reply carries the score, its tier, the tier's predicted days, today plus those days as the predicted date, and the scheduled date. |
| MachineViews.PredictionForLowScores | backend/machines/views.py:203-219 | A scored machine below 60 is predicted 3 days out, and one in 60..79 is predicted 7 days out. |
| MachineViews.SummaryOf | backend/machines/views.py:262-267 | The total is the number of machines. Operational, under maintenance and down add up to the total less the decommissioned ones. |
| MachineViews.Dashboard | backend/machines/views.py:244-272 | One row per machine, in order, each with its health, status and days until due. The summary never counts more than the total. |
| MachineViews.BulkLog | backend/machines/views.py:317-343 | The created readings are exactly the valid items for a known machine, in order. The other items, in order, give a not-found error for an unknown machine and a validation error otherwise. Created plus failed is the number of items, and the status is 201 exactly when at least one reading was created. |
| MaintenanceModels.SparePart.constructor | backend/maintenance/models.py:72-73 | A new part has stock 0 and minimum 5, so it is low on stock. |
| MaintenanceModels.WorkOrder.constructor | backend/maintenance/models.py:27-41 | A new order is PENDING and MEDIUM, without timestamps, with zero costs and no parts used. |
| MaintenanceModels.SparePartUsage.constructor | backend/maintenance/models.py:93-97 | A usage links an order and a part with a quantity and is not yet saved. |
| MaintenanceModels.SparePartUsage.Save | backend/maintenance/models.py:109-112 | Every save lowers the part's stock by the quantity used, with no lower bound, so stock may go negative. A second save lowers it again. Only the first save adds the usage to the order's parts. |
| MaintenanceModels.PartsCostAppend | backend/maintenance/views.py:80-82 | The parts cost, the sum of unit cost times quantity, over two lists of usages is the sum of their costs. |
| MaintenanceViews.RunNeverCancels | backend/maintenance/views.py:28-63 | No sequence of start and complete actions ever reaches CANCELLED from another status. |
| MaintenanceViews.CompletedIsFinal | backend/maintenance/views.py:47-49 | No later start or complete request changes a COMPLETED order. |
| MaintenanceViews.StartedAtMostOnce | backend/maintenance/views.py:31-35 | Over any sequence of actions, start succeeds at most once, and only from PENDING. |
| MaintenanceViews.StartWork | backend/maintenance/views.py:28-42 | Succeeds exactly from PENDING, nothing changes otherwise. On success the order is IN_PROGRESS with its start time set and the machine is UNDER_MAINTENANCE. |
| MaintenanceViews.CompleteWork | backend/maintenance/views.py:44-63 | Fails only for an already COMPLETED order, with nothing changed. Otherwise the order is COMPLETED at now, and absent labour figures keep their values while absent notes become empty. The machine is OPERATIONAL, last maintained today, and due today plus its frequency. |
| MaintenanceViews.ValidPrefixLength | backend/maintenance/views.py:71-78 | Counts the leading valid part requests; the request after them, if any, is the invalid one. |
| MaintenanceViews.SaveRequestedParts | backend/maintenance/views.py:70-78 | One saved usage per request up to the first invalid one, recorded in order, whose errors are returned. Nothing after it is saved. Each requested part's stock drops by the quantities saved for it. |
| MaintenanceViews.AddParts | backend/maintenance/views.py:65-85 | Keeps the saved prefix and the stock decrements even when it stops at an invalid part. When every part is valid, the order's parts cost is the sum of unit cost times quantity over all its usages. |
| MaintenanceViews.PartsCostAsWritten | backend/maintenance/views.py:80-82 | The cost expression as written yields a value only for an order with no usages. |
| MaintenanceViews.AddPartsAsWritten | backend/maintenance/views.py:65-85 | As written, a request whose parts are all valid saves them and lowers the stock, then fails with a server error whenever the order has any usage. |
| MaintenanceViews.AddOnePartBothWays | backend/maintenance/views.py:80-82 | A new order and one request for 2 units of a new part costing 1000 cents: as written the reply is a server error and the stock is already -2. Corrected, the order's parts cost is 2000. |
| MaintenanceViews.LowStockParts | backend/maintenance/views.py:95-99 | Exactly the parts whose stock is at or below their minimum, equality included. |
| MaintenanceViews.LowStockPartsAppend | backend/maintenance/views.py:97 | The filter distributes over concatenation, so the low-stock parts keep the queryset's order, which is by `part_name` (backend/maintenance/models.py:84). |
| MaintenanceViews.Restock | backend/maintenance/views.py:101-116 | A missing or non-positive quantity is rejected with the stock unchanged. Otherwise the new stock is the old stock plus the quantity. |
| AnalyticsViews.HealthBucketsPartition | backend/analytics/views.py:17-26 | The four buckets plus the UNKNOWN machines add up to the number of machines. |
| AnalyticsViews.OrderCountsBounded | backend/analytics/views.py:34-36 | The pending, in-progress and completed counts never exceed the number of orders. |
| AnalyticsViews.DashboardOverview | backend/analytics/views.py:11-38 | The loop gives each health bucket the number of machines in that status, and their sum never exceeds the total. The status, order and low-stock figures are the counts of their tables. |
| Notifications.SeverityOf | backend/analytics/notifications.py:17-90 | Overdue is HIGH, due soon MEDIUM, anomaly CRITICAL, low stock MEDIUM, pending MEDIUM; no type is LOW. |
| Notifications.OverdueAndDueSoonDisjoint | backend/analytics/notifications.py:17-35 | No machine is both overdue and due soon, and one without a next date is neither. |
| Notifications.OverdueNote | backend/analytics/notifications.py:21-30 | Titled with the machine id and HIGH. For an overdue machine, the days overdue are at least 1 and are today minus the due date. |
| Notifications.DueSoonNote | backend/analytics/notifications.py:38-46 | Titled with the machine id and MEDIUM. For a machine due soon, the days until due are in 0..3. |
| Notifications.AnomalyNote | backend/analytics/notifications.py:54-61 | CRITICAL, carries the reading's reason and is stamped with the reading's time. |
| Notifications.LowStockNote | backend/analytics/notifications.py:67-75 | MEDIUM and carries the part's stock and minimum. |
| Notifications.PendingNote | backend/analytics/notifications.py:82-90 | MEDIUM and carries the order's title, machine and scheduled date. |
| Notifications.SortBySeverity | backend/analytics/notifications.py:92-95 | The sort keeps the number of notifications. |
| Notifications.SortDescending | backend/analytics/notifications.py:92-95 | The sorted list never has an element whose `(rank, timestamp)` key is below the next one's. |
| Notifications.SortedRanksNonIncreasing | backend/analytics/notifications.py:92-95 | Severity ranks never increase along the sorted list. Because of `reverse=True`, MEDIUM comes first and CRITICAL last. |
| Notifications.SortPermutes | backend/analytics/notifications.py:92-95 | The sorted list is a permutation of the generated one. |
| Notifications.SortStable | backend/analytics/notifications.py:92-95 | Notifications with equal keys keep their generated order. |
| Notifications.SortFilter | backend/analytics/notifications.py:92-95 | Sorting and then keeping the notifications that satisfy any test gives the same list as keeping them first and then sorting. |
| Notifications.SortIncreasing | backend/analytics/notifications.py:92-95 | A list whose keys strictly increase comes out of the sort reversed. |
| Notifications.GeneratedWellTyped | backend/analytics/notifications.py:17-90 | Every generated notification has the severity its type fixes. |
| Notifications.GeneratedStamped | backend/analytics/notifications.py:21-90 | Every generated notification except an anomaly one carries the clock reading taken when it was appended at its position. |
| Notifications.AppendEach | backend/analytics/notifications.py:21-30 | Each loop appends one note per row, in row order, after what was there; each note is built with the position it takes. |
| Notifications.CollectNotifications | backend/analytics/notifications.py:13-90 | The five loops produce the overdue, due-soon, anomaly, low-stock and pending notes, in that order, each group in row order, each note stamped with its own clock reading. |
| Notifications.GetNotifications | backend/analytics/notifications.py:12-103 | The reply is the sorted generated list with its total and its per-severity counts. |
| Notifications.NewestFirstOf | backend/analytics/notifications.py:92-95 | In a list stamped from a clock that moves forward, the notes of one severity other than CRITICAL come out of the sort in the reverse of their order in the list. |
| Notifications.NewestFirstWithinSeverity | backend/analytics/notifications.py:21-95 | With a clock that moves forward, the HIGH notes and the MEDIUM notes each come out newest first: among the MEDIUM ones, pending orders before low-stock parts before machines due soon, each group in reverse row order. |
| Notifications.TotalIsSumOfCounts | backend/analytics/notifications.py:97-102 | The total is critical plus high plus medium. |
| Notifications.OverdueNotificationIff | backend/analytics/notifications.py:17-30 | The reply holds an overdue notice about a machine exactly when some machine with that id is overdue. |
| Notifications.PendingNotificationIff | backend/analytics/notifications.py:77-90 | The reply holds a pending notice about an order exactly when that order is PENDING and scheduled on or before today. |
| NotificationBell.UnreadCount | frontend/components/layout/notification-bell.tsx:46 | At most the number of items, and 0 exactly when every item is read. |
| NotificationBell.MarkAllRead | frontend/components/layout/notification-bell.tsx:59-61 | Keeps the length, order and every other field, and sets every item read. |
| NotificationBell.MarkAllReadClearsBadge | frontend/components/layout/notification-bell.tsx:59-61 | After marking all read the unread count is 0, and marking again changes nothing. |
| NotificationBell.DeleteById | frontend/components/layout/notification-bell.tsx:63-65 | No item with the id survives, and nothing is added. |
| NotificationBell.DeleteRemovesExactly | frontend/components/layout/notification-bell.tsx:63-65 | An item survives exactly when it was there and has another id. |
| NotificationBell.DeleteIdempotent | frontend/components/layout/notification-bell.tsx:63-65 | Deleting the same id twice is the same as once. |
| NotificationBell.DeleteKeepsOrder | frontend/components/layout/notification-bell.tsx:63-65 | Deletion works piecewise over a split list, so the survivors keep their order. |
| NotificationBell.BadgeLabel | frontend/components/layout/notification-bell.tsx:87-90 | No badge exactly when nothing is unread. The label is "9+" above 9 and the count itself otherwise. |
| NotificationBell.TypeColor | frontend/components/layout/notification-bell.tsx:67-78 | Red, yellow or green exactly for error, warning or success, and blue exactly for any other type. |
| NotificationBell.Bell.constructor | frontend/components/layout/notification-bell.tsx:18-43 | The bell starts with three sample items, two of them unread. |
| NotificationBell.Bell.HandleMarkAllRead | frontend/components/layout/notification-bell.tsx:59-61 | The list becomes all read and the unread count 0. |
| NotificationBell.Bell.HandleDelete | frontend/components/layout/notification-bell.tsx:63-65 | The list loses exactly the items with the id. |
| UseNotifications.MarkRead | frontend/hooks/useNotifications.ts:45 | Only entries with the id are changed, and only to read. |
| UseNotifications.MarkReadUnread | frontend/hooks/useNotifications.ts:45 | The unread count of the list falls by the number of unread entries with that id. |
| UseNotifications.Decremented | frontend/hooks/useNotifications.ts:46 | The counter drops by one and never below 0. |
| UseNotifications.CounterDriftsOnRepeatedMark | frontend/hooks/useNotifications.ts:42-50 | Marking the same notification twice leaves the counter at 0 while one other item is still unread. |
| UseNotifications.NotificationsState.constructor | frontend/hooks/useNotifications.ts:18-20 | The state starts empty, with count 0 and not loading. |
| UseNotifications.NotificationsState.FetchNotifications | frontend/hooks/useNotifications.ts:28-40 | On a response whose data is a list, the list is that data and the count its unread items. On a rejected request both are unchanged. Loading ends in either case. |
| UseNotifications.NotificationsState.MarkAsRead | frontend/hooks/useNotifications.ts:42-50 | On success the entry is marked read and the counter decremented, even when nothing was unread. On failure nothing changes. |
| UseNotifications.NotificationsState.ClearAll | frontend/hooks/useNotifications.ts:52-60 | On success the list is empty and the count 0; on failure nothing changes. |
| ChatRoute.ToEntry | frontend/app/api/chat/route.ts:65-68 | "assistant" maps to "model" and every other kept role to "user", carrying the content as its only part. |
| ChatRoute.AllButLast | frontend/app/api/chat/route.ts:63 | The messages without the last one, as a prefix. |
| ChatRoute.Candidates | frontend/app/api/chat/route.ts:63-68 | At most as many entries as messages, each of role "user" or "model" with one part. |
| ChatRoute.BuildHistory | frontend/app/api/chat/route.ts:63-72 | The history is never longer than the messages less one. |
| ChatRoute.CandidatesKeepOrder | frontend/app/api/chat/route.ts:63-68 | Building over two parts of a conversation gives the two histories one after the other, so order is kept. |
| ChatRoute.HistoryDropsOnlyLeadingModel | frontend/app/api/chat/route.ts:71 | Exactly the first entry is dropped when it is "model", and nothing is dropped otherwise. |
| ChatRoute.SingleMessageHasEmptyHistory | frontend/app/api/chat/route.ts:63-74 | The last message is only the prompt and never part of the history. |
| ChatRoute.OtherRolesDropped | frontend/app/api/chat/route.ts:64 | A message of any role other than user or assistant never reaches the history. |
| ChatRoute.Post | frontend/app/api/chat/route.ts:5-116 | A body that is not JSON, or one without messages, gives the generic 500. With a body but no key the reply is the key error 500. Fallback text is only ever the quota text, and no streamed piece is empty. |
| ChatRoute.PostCallsServiceWithHistory | frontend/app/api/chat/route.ts:63-115 | The service gets the built history and the last message's content. A stream is passed on without its empty chunks. A rejection gives the quota text exactly for status 429 and the generic 500 otherwise. |
| Text.TrimEmptyIffBlank | frontend/components/ai-chatbot.tsx:37 | `trim()` gives the empty string exactly for whitespace-only input. |
| AiChatbot.ToChatMessage | frontend/components/ai-chatbot.tsx:56-59 | Sender "user" maps to role "user" and any other sender to "assistant", keeping the text. |
| AiChatbot.ToPayload | frontend/components/ai-chatbot.tsx:56-59 | One payload entry per message, in order. |
| AiChatbot.UpdateText | frontend/components/ai-chatbot.tsx:81 | Only messages with the id get the new text; all others are unchanged. |
| AiChatbot.UpdateTextOverwrites | frontend/components/ai-chatbot.tsx:77-82 | A later chunk update overwrites an earlier one. |
| AiChatbot.UpdateOnlyTheBotMessage | frontend/components/ai-chatbot.tsx:81 | When no earlier message shares the bot's id, only the bot message changes. |
| AiChatbot.StreamStep | frontend/components/ai-chatbot.tsx:77-82 | One more chunk appends it to the text so far and rewrites the bot message to that text. |
| AiChatbot.FailureAppendsOneError | frontend/components/ai-chatbot.tsx:83-91 | A failed request or a non-OK reply appends exactly one bot error message and keeps the rest. |
| AiChatbot.StreamFillsBotMessage | frontend/components/ai-chatbot.tsx:69-91 | After a stream the earlier messages are unchanged and the bot message holds all chunks joined. A broken stream is followed by the error message. |
| AiChatbot.Chatbot.constructor | frontend/components/ai-chatbot.tsx:16-25 | The chat starts with the one bot greeting, an empty input and not loading. |
| AiChatbot.Chatbot.HandleSendMessage | frontend/components/ai-chatbot.tsx:36-95 | Whitespace-only input changes nothing and sends nothing. Otherwise one user message is appended, the input is cleared, and the payload has one entry more than the old list. The list then follows the reply, and loading ends. |
| AiChatbot.Chatbot.Submit | frontend/components/ai-chatbot.tsx:39-95 | The user's message is appended, the input is cleared, and the payload is the old list plus that message, converted. The list then follows the reply, and loading ends. |
| AiChatbot.Chatbot.Respond | frontend/components/ai-chatbot.tsx:61-91 | The message list follows the reply: a streamed bot message, or an error message. |
| AiChatbot.Chatbot.ReadStream | frontend/components/ai-chatbot.tsx:77-82 | The loop leaves the bot message holding the concatenation of all chunks and nothing else changed. |
| AiChatbot.FirstExchangeHasEmptyHistory | frontend/components/ai-chatbot.tsx:56-59 | For the first question after the greeting, the route's history is empty. |
| AiChatbot.MessageIdsDiffer | frontend/components/ai-chatbot.tsx:40-70 | The bot message's id, the reply time plus one, never equals the user message's id. |
| MachineCard.CeilDiv | frontend/components/dashboard/machine-card.tsx:28 | `Math.ceil` of a quotient: the least whole number with the dividend at most it times the divisor. |
| MachineCard.DaysUntilMaint | frontend/components/dashboard/machine-card.tsx:28 | 0 for an empty date and NaN for an unparseable one. Otherwise the whole days, rounded up, until the date. |
| MachineCard.ProgressPercent | frontend/components/dashboard/machine-card.tsx:29 | Always in 0..100. It is 100 unless days are ahead, 0 at 30 days or more, and otherwise 100 less the share of 30 days. |
| MachineCard.ProgressGrowsAsDateNears | frontend/components/dashboard/machine-card.tsx:29 | Fewer days ahead never gives a smaller progress. |
| MachineCard.BarWidth | frontend/components/dashboard/machine-card.tsx:64 | The bar's width is the progress. |
| MachineCard.MaintenanceLabel | frontend/components/dashboard/machine-card.tsx:59 | "Overdue" exactly when the days are not ahead. |
| MachineCard.LabelShowsDays | frontend/components/dashboard/machine-card.tsx:59 | With days ahead the label is the number followed by " days". |
| MachineCard.DueTodayShowsOverdue | frontend/components/dashboard/machine-card.tsx:28-29 | A date earlier today gives 0 days, so the card shows "Overdue" at 100%. |
| MachineCard.EmptyDateIsOverdue | frontend/components/dashboard/machine-card.tsx:28-29 | No date shows "Overdue" at 100%. |
| MachineCard.UnparseableDateIsOverdue | frontend/components/dashboard/machine-card.tsx:28-29 | An unparseable date shows "Overdue" at 100%. |
| MachineCard.StatusConfig | frontend/components/dashboard/machine-card.tsx:21-25 | Each status has its own badge class. |
| SignupPage.FailureMessage | frontend/app/signup/page.tsx:49 | The first username error, else the first email error, else "Registration failed"; never empty. |
| SignupPage.Signup.constructor | frontend/app/signup/page.tsx:21-23 | The page starts without an error, not loading and without the success panel. |
| SignupPage.Signup.HandleSubmit | frontend/app/signup/page.tsx:25-53 | Mismatched passwords set the mismatch error and return without loading or a request. Otherwise the request is made and loading ends. Success stores both tokens and the user and shows the panel. Failure shows the failure message and stores nothing. |

## Left out

- The AI health score: `IsolationForest`, the min-max normalisation and the IMPROVING / DECLINING trend are
  a foreign library and floating point. The score is an integer input to `MachineViews.HealthScore`.
- `detect_anomaly` (mean and standard deviation in floating point) and the QR code image are not part of
  this model. The anomaly flag of a reading is an input.
- The PDF report of `machines/views.py` is output formatting and is not modelled.
- `latest_reading`, the single `log_reading` action and lookup by code are plain queries and are not modelled.
- Serializer validation is not modelled. A part request or a bulk item arrives already valid or invalid with
  its errors, and the validated data is taken as given.
- ISO timestamp strings are modelled as integer instants, and notification and error messages as structured values
  rather than formatted text.
- The database is not modelled. `save()` is the in-memory field update, and `.values()` rows are datatypes.
- The Gemini client, the system prompt and the async streams are a foreign service and become a parameter of
  `ChatRoute.Post`. The chatbot's HTTP reply is an input.
- The chunks of a streamed chatbot reply (`AiChatbot.ChatReply.Streams`) are already-decoded strings. The component calls `decoder.decode(value)`
  without `{stream: true}` (frontend/components/ai-chatbot.tsx:80), so a multi-byte character split across two
  chunks becomes U+FFFD there. The model does not show this.
- The generic update of `WorkOrderViewSet` (a `ModelViewSet` whose serializer leaves `status` writable) can set any
  status, including moving a COMPLETED order back. The state machine of `MaintenanceViews.Run` covers only the
  start and complete actions.
- MachineViews.BulkLog: `perform_create` persists each created reading (backend/machines/views.py:329-331), but the
  model does not append it to `Machine.readings`. A bulk-logged anomaly therefore never reaches `GetHealthStatus`
  in the model.
- MaintenanceViews.Restock: the quantity is an optional integer. In the source, a string quantity makes
  `quantity <= 0` raise a TypeError, which is a server error. A fractional quantity is added as is. Neither case is
  modelled.
- UI toggles (open / close, password visibility), scrolling, the router redirect and its `setTimeout` are not modelled.
- UseNotifications.NotificationsState.FetchNotifications: the reply is modelled as a list of notifications or a
  rejected request. A successful reply whose data is not a list is not modelled. In the source, such a reply is
  stored by `setNotifications(response.data)`, then `response.data.filter` throws, and the catch swallows it
  (frontend/hooks/useNotifications.ts:32-33). The stored value is then not a list, and `unreadCount` keeps its old
  value. This is what the backend's reply would do. `get_notifications` answers with an object
  `{total, critical, high, medium, notifications}` (backend/analytics/notifications.py:97-103). It is also served at
  `/api/analytics/notifications/` (backend/factory_maintenance/api_root.py:47), not at the hook's `/notifications/`.
- UseNotifications.NotificationsState.MarkAsRead: React closes over the counter of the render that created
  the callback; the model decrements the current counter.
- MachineCard.ProgressPercent: JavaScript floating point is modelled as exact `real` arithmetic.
- MachineCard.DaysUntilMaint: `new Date(...)` parsing is modelled as a date in milliseconds, no date, or an
  unparseable one.
- MachineCard.StatusConfig: the icon component of each status is not modelled, only its badge class.
- `frontend/lib/api.ts`, `useAuth` and `useMachines` are network and storage clients and are not part of this model.
- MaintenanceModels.WorkOrder.TotalCost has no contract of its own. It is used by the completion step.
- Concurrency between requests and timezones are not modelled. The query filters of `get_notifications` use one
  `today` and one anomaly cutoff `now`; the separate clock reading taken for each stamped note is `clock` of its position.
- The newest-first order of `Notifications.NewestFirstWithinSeverity` needs a clock that moves forward between
  notes. At microsecond resolution a tie is rare but possible. Two equal readings tie, and tied notes keep their generated order, as `Notifications.SortStable` states.

## Findings

| source | as written | input that shows it | evidently intended | confidence | as-written member | corrected member |
|---|---|---|---|---|---|---|
| backend/maintenance/views.py:80-82 | The parts cost sums `p['spare_part'].unit_cost * p['quantity_used']` over `parts_used.all()`. Those are model instances, which cannot be indexed, so the request ends in a server error. This happens after the usages were saved and the stock was lowered. | A work order and one valid part request (quantity 2 of a part costing 1000) | The parts cost becomes the sum of unit cost times quantity over the order's usages, and the reply succeeds | not executed | MaintenanceViews.AddPartsAsWritten | MaintenanceViews.AddParts |
