# GreenBites food-donation dashboards, modelled in Dafny

GreenBites is a browser application that connects food donors with food seekers. A user signs
in with one of two demo accounts. A donor then manages donations, and a seeker manages food
requests. Each dashboard shows statistics computed from its list, a notification bell and a
message center. All of its state lives in the browser's `localStorage`, seeded with demo data on
the first visit.

This project models the application's logic:

- `Records`: the record types and the list operations the dashboards apply.
  - The weight of a quantity, where text that does not parse is NaN and NaN absorbs every sum.
  - Updating and removing records by id.
- `Text`: JavaScript's white space and `trim`, `parseFloat` on decimal text, and decimal printing.
- `Lists`: `filter(...).length`, `filter`, and the by-id `map`/`filter` operations.
- `Forms`: the pieces the three forms share.
  - Typing into a field blanks its error.
  - The quantity rule `!q || parseFloat(q) <= 0`.
- `Storage`: `localStorage` as a class holding whole values, and the load-or-seed step each
  dashboard runs per key on mount.
- `DefaultData`: the seeded donations, requests, notifications and messages, built from one
  clock reading `now`.
- `Inbox`: the four notification and message handlers. Both dashboards carry identical copies of
  them; they are modelled once.
- `DonorDashboard` and `SeekerDashboard`.
  - Statistics, form validation and submission.
  - Deletion, and the seeker's status update.
  - The badge lookups.
  - Each dashboard's state is a class whose methods update it and the store.
- `NotificationBell` and `MessageCenter`.
  - Unread badges, icons and avatars.
  - The relative time text.
  - The dropdown and selection state.
- `Login`: the email pattern and the password rule, the demo-account check, the demo fill and the
  role switch.
- `App`: the route table, session restore on mount, sign-in and sign-out.

Time is an integer number of milliseconds passed in as `now`. Calendar days are `now / 86400000`.
Quantities are exact reals, and `None` stands for NaN. As in the code, every unit other than
`kg` is divided by 1000, pounds included.

## Model

| member | source | states |
|---|---|---|
| `Text.TrimStart` | src/components/DonorDashboard.jsx:108 | the result is a suffix of the input that starts with a non-space, and is empty exactly when the input is blank |
| `Text.TrimEnd` | src/components/DonorDashboard.jsx:108 | the result is a prefix of the input that ends with a non-space, and is empty exactly when the input is blank |
| `Text.Trim` | src/components/DonorDashboard.jsx:108 | the trimmed text is no longer than the input and, when not empty, starts and ends with a non-space |
| `Text.TrimEmptyIffBlank` | src/components/DonorDashboard.jsx:108 | `!s.trim()` holds exactly when every character of `s` is JavaScript white space |
| `Text.NatToString` | src/components/NotificationBell.jsx:41-43 | decimal printing yields digits whose value is the number, with no leading zero |
| `Text.IntToStringInjective` | src/components/DonorDashboard.jsx:31 | different ids print differently, so per-user keys and time texts never collide |
| `Text.ParseFloat` | src/components/DonorDashboard.jsx:112 | `parseFloat` yields a number only when the text contains a digit |
| `Text.ParseFloatOfNat` | src/components/DonorDashboard.jsx:79 | `parseFloat` of a printed natural number gives that number back |
| `Text.ParseFloatOfNegated` | src/components/DonorDashboard.jsx:112 | `parseFloat` of `-n` gives `-n` |
| `Lists.Count` | src/components/SeekerDashboard.jsx:116-117 | `filter(p).length` is at most the length, is 0 exactly when nothing satisfies `p`, and is the length exactly when everything does |
| `Lists.CountAppend` | src/components/SeekerDashboard.jsx:117 | counting splits over concatenation |
| `Lists.FilterMembers` | src/components/SeekerDashboard.jsx:118-119 | `filter(p)` keeps exactly the elements satisfying `p` |
| `Lists.FilterAppend` | src/components/SeekerDashboard.jsx:118-119 | filtering splits over concatenation |
| `Lists.FilterAll` | src/components/SeekerDashboard.jsx:118-119 | filtering a list whose elements all satisfy `p` returns it unchanged |
| `Lists.RemoveId` | src/components/DonorDashboard.jsx:169 | `filter(x => x.id !== id)` keeps exactly the elements with another id |
| `Lists.RemoveIdAppend` | src/components/DonorDashboard.jsx:169 | removal by id splits over concatenation |
| `Lists.RemoveIdAbsent` | src/components/DonorDashboard.jsx:169 | removing an id nobody carries changes nothing |
| `Lists.UpdateId` | src/components/SeekerDashboard.jsx:208-210 | the by-id `map` keeps the length, updates exactly the elements with the id and leaves the others alone |
| `Lists.UpdateIdAppend` | src/components/SeekerDashboard.jsx:208-210 | updating by id splits over concatenation |
| `Lists.UpdateIdAbsent` | src/components/SeekerDashboard.jsx:208-210 | updating an id nobody carries changes nothing |
| `Lists.UpdateIdTwice` | src/components/DonorDashboard.jsx:194-196 | an idempotent id-preserving update done twice is the same as done once |
| `Lists.CountAfterUpdate` | src/components/NotificationBell.jsx:7 | an update that falsifies `p` lowers the count of `p` by exactly the number of matching elements with that id |
| `Records.DayOfShift` | src/utils/defaultData.js:4-7 | adding `k` whole days to a clock reading adds `k` to its day number |
| `Records.AddWeights` | src/components/DonorDashboard.jsx:80 | a sum is a number exactly when both operands are (NaN absorbs) |
| `Records.WeightInKg` | src/components/DonorDashboard.jsx:79 | a weight exists exactly when `parseFloat` of the quantity does; `kg` takes the parsed number as it is, any other unit takes a thousandth of it |
| `Records.WeightUnits` | src/components/DonorDashboard.jsx:79 | `n` kg weighs `n`; `n` in any other unit (`g` and `lbs` alike) weighs `n/1000` |
| `Records.SumWeightsDefined` | src/components/DonorDashboard.jsx:78-81 | the `reduce` total is a number exactly when every weight is, and is non-negative when all weights are |
| `Records.SumWeightsAppend` | src/components/DonorDashboard.jsx:78-81 | the total of a concatenation is the sum of the totals |
| `Records.SumWeightsPair` | src/components/DonorDashboard.jsx:78-81 | two records that both weigh something total the sum of their weights |
| `Records.SumOfWholeWeights` | src/components/DonorDashboard.jsx:78-81 | when every weight is a whole number, the total is the sum of those numbers |
| `Records.MarkNotificationRead` | src/components/DonorDashboard.jsx:193-199 | the list keeps its length; exactly the notifications with the id become read and nothing else changes |
| `Records.MarkNotificationReadTwice` | src/components/DonorDashboard.jsx:193-199 | marking the same id twice is the same as marking it once |
| `Records.MarkMessageRead` | src/components/DonorDashboard.jsx:206-212 | the list keeps its length; exactly the messages with the id become read and nothing else changes |
| `Records.SetRequestStatus` | src/components/SeekerDashboard.jsx:207-214 | the list keeps its length; exactly the requests with the id take the new status and nothing else changes |
| `Records.RemoveDonation` | src/components/DonorDashboard.jsx:167-174 | exactly the donations with another id remain |
| `Records.RemoveRequest` | src/components/SeekerDashboard.jsx:216-223 | exactly the requests with another id remain |
| `Records.RemoveMessage` | src/components/DonorDashboard.jsx:214-218 | exactly the messages with another id remain |
| `Forms.ClearFieldError` | src/components/DonorDashboard.jsx:97-102 | typing into a field blanks its non-empty error, keeps the keys and leaves the other fields' errors alone |
| `Forms.WholeQuantities` | src/components/DonorDashboard.jsx:112-114 | a whole-number quantity is accepted exactly when it is positive |
| `Forms.NegativeQuantities` | src/components/DonorDashboard.jsx:112-114 | a negative quantity is refused |
| `Forms.DigitlessQuantities` | src/components/DonorDashboard.jsx:112-114 | non-empty text without digits is accepted, because NaN compares false |
| `Storage.KeysOfKindsDiffer` | src/components/DonorDashboard.jsx:31-73 | the donation, request, notification, message and session keys never coincide |
| `Storage.KeysPerUser` | src/components/DonorDashboard.jsx:31-73 | different users get different keys of every kind |
| `Storage.Store.constructor` | src/App.jsx:16 | the store starts empty |
| `Storage.Store.Get` | src/components/DonorDashboard.jsx:31 | `getItem` finds a value exactly when the key is present, and returns that value |
| `Storage.Store.Set` | src/components/DonorDashboard.jsx:45 | `setItem` replaces one key and nothing else |
| `Storage.Store.Remove` | src/App.jsx:38 | `removeItem` deletes one key and nothing else |
| `Storage.Store.Clear` | src/App.jsx:16 | `clear` empties the store |
| `Storage.LoadOrSeed` | src/components/DonorDashboard.jsx:31-46 | the seed is used exactly when nothing is stored; a readable stored list is kept; otherwise the key is unreadable |
| `Storage.AfterLoad` | src/components/DonorDashboard.jsx:42-45 | only a seeded list is written back, under its own key |
| `Storage.SeedOnce` | src/components/DonorDashboard.jsx:31-46 | loading again from the store a load left behind keeps the list the first load produced |
| `DefaultData.DefaultDonations` | src/utils/defaultData.js:2-73 | five available donations in kg by "Food Donor", with ids `now - 1000·(i+1)`, created one to five days ago |
| `DefaultData.DefaultDonationIdsDistinct` | src/utils/defaultData.js:13-61 | the seeded donation ids are pairwise distinct |
| `DefaultData.DefaultDonationsIgnoreUser` | src/utils/defaultData.js:2 | the seed does not depend on the user id |
| `DefaultData.DefaultDonationExpiries` | src/utils/defaultData.js:4-7 | every seeded donation expires three to ten days after today |
| `DefaultData.DefaultReceivedFood` | src/utils/defaultData.js:76-132 | four requests in kg, the first three completed and the last approved |
| `DefaultData.DefaultDonorNotifications` | src/utils/defaultData.js:136-172 | four notifications, the two newest unread, newest first, all in the past |
| `DefaultData.DefaultSeekerNotifications` | src/utils/defaultData.js:175-211 | four notifications, the two newest unread, newest first, all in the past |
| `DefaultData.DefaultDonorMessages` | src/utils/defaultData.js:214-285 | three messages, the two newest unread, newest first, all in the past |
| `DefaultData.DefaultSeekerMessages` | src/utils/defaultData.js:288-379 | three messages, the two newest unread, newest first, all in the past |
| `Inbox.InboxState.constructor` | src/components/DonorDashboard.jsx:11-12 | both lists start empty |
| `Inbox.InboxState.Load` | src/components/DonorDashboard.jsx:48-74 | notifications and then messages are each loaded or seeded, and only seeds are written back |
| `Inbox.InboxState.MarkNotificationAsRead` | src/components/DonorDashboard.jsx:193-199 | the list becomes the marked list, and that list is what the store holds |
| `Inbox.InboxState.ClearAllNotifications` | src/components/DonorDashboard.jsx:201-204 | the list becomes empty, and so does the stored one |
| `Inbox.InboxState.MarkMessageAsRead` | src/components/DonorDashboard.jsx:206-212 | the message list becomes the marked list, and that list is what the store holds |
| `Inbox.InboxState.DeleteMessage` | src/components/DonorDashboard.jsx:214-218 | the message is removed, with no confirmation, from memory and store alike |
| `DonorDashboard.TotalWeight` | src/components/DonorDashboard.jsx:78-81 | no donations weigh 0 |
| `DonorDashboard.TotalWeightDefined` | src/components/DonorDashboard.jsx:78-81 | the total is a number exactly when every donation's weight is, and is non-negative when every weight is |
| `DonorDashboard.StatsOf` | src/components/DonorDashboard.jsx:77-89 | counts every donation; the weight is the unit-converted total `TotalWeight` of the donations, a number exactly when every weight is; people helped is the floor of 4·weight; CO₂ is 2.5·weight |
| `DonorDashboard.StatsOfNothing` | src/components/DonorDashboard.jsx:13-18 | the statistics of no donations are the initial ones |
| `DonorDashboard.TotalWeightAfterCreate` | src/components/DonorDashboard.jsx:150-153 | a new donation adds its own weight to the total |
| `DonorDashboard.MixedUnits` | src/components/DonorDashboard.jsx:78-81 | `n` in any unit other than kg (`g` or `lbs`) followed by `m` kg weighs `n/1000 + m` |
| `DonorDashboard.WholeKilograms` | src/components/DonorDashboard.jsx:79 | a whole number of kilograms weighs that number |
| `DonorDashboard.FractionalUnit` | src/components/DonorDashboard.jsx:79 | a whole number in any unit other than kg, grams and pounds alike, weighs a thousandth of that number |
| `DonorDashboard.KilogramTotal` | src/components/DonorDashboard.jsx:78-81 | donations of whole kilograms weigh the sum of those numbers |
| `DonorDashboard.SeedQuantities` | src/utils/defaultData.js:15-64 | the seeded quantities are 15, 8, 25, 30 and 12 kg |
| `DonorDashboard.SeedKilogramsTotal` | src/utils/defaultData.js:15-64 | those quantities add up to 90 |
| `DonorDashboard.SeedTotalWeight` | src/utils/defaultData.js:2-73 | the seeded donations weigh 90 kg |
| `DonorDashboard.SeedStats` | src/utils/defaultData.js:2-73 | the seeded dashboard shows 5 donations, 90 kg, 360 people and 225 kg of CO₂ |
| `DonorDashboard.SeedReportLines` | src/utils/defaultData.js:247-250 | the report's totals lines are those four figures |
| `DonorDashboard.SeedReportQuotesTotals` | src/utils/defaultData.js:238-262 | the seeded impact report message contains those lines |
| `DonorDashboard.SeedReportQuotesSeedStats` | src/utils/defaultData.js:247-250 | the impact report quotes exactly the statistics of the seeded donations |
| `DonorDashboard.ApplyInput` | src/components/DonorDashboard.jsx:91-96 | the edited field takes the value and every other field keeps its own |
| `DonorDashboard.FormErrors` | src/components/DonorDashboard.jsx:105-133 | only food type, quantity, expiry date and location are ever checked |
| `DonorDashboard.FoodTypeChecked` | src/components/DonorDashboard.jsx:108-110 | the food type has an error exactly when it is blank |
| `DonorDashboard.QuantityChecked` | src/components/DonorDashboard.jsx:112-114 | the quantity has an error exactly when it is empty or parses to at most 0 |
| `DonorDashboard.ExpiryDateChecked` | src/components/DonorDashboard.jsx:116-125 | the expiry date has an error exactly when it is empty or a day before today, with the matching message |
| `DonorDashboard.LocationChecked` | src/components/DonorDashboard.jsx:127-129 | the location has an error exactly when it is blank |
| `DonorDashboard.DescriptionNotChecked` | src/components/DonorDashboard.jsx:105-133 | the description never affects validation |
| `DonorDashboard.InvalidDateAccepted` | src/components/DonorDashboard.jsx:119-122 | a date that does not parse passes, because comparing an invalid date is false |
| `DonorDashboard.NewDonation` | src/components/DonorDashboard.jsx:142-148 | the new donation is available, carries the donor's name and the clock as id and creation time, and otherwise is the form |
| `DonorDashboard.StatusBadge` | src/components/DonorDashboard.jsx:176-183 | claimed is a warning, completed is info, and every other status is success |
| `DonorDashboard.Dashboard.constructor` | src/components/DonorDashboard.jsx:9-27 | everything starts empty, with the initial statistics and the empty form |
| `DonorDashboard.Dashboard.Mount` | src/components/DonorDashboard.jsx:30-75 | each of the three keys is loaded or seeded from the defaults; the statistics follow the loaded donations |
| `DonorDashboard.Dashboard.LoadAll` | src/components/DonorDashboard.jsx:30-75 | the mount effect for given seeds: donations, then notifications, then messages |
| `DonorDashboard.Dashboard.LoadDonations` | src/components/DonorDashboard.jsx:31-46 | donations are loaded or seeded; the statistics follow, and an unreadable value changes nothing |
| `DonorDashboard.Dashboard.HandleInputChange` | src/components/DonorDashboard.jsx:91-103 | the field takes the value and its error is blanked |
| `DonorDashboard.Dashboard.ValidateForm` | src/components/DonorDashboard.jsx:105-133 | the error map is rebuilt for today, and the form passes exactly when it is empty |
| `DonorDashboard.Dashboard.HandleSubmit` | src/components/DonorDashboard.jsx:135-165 | an invalid form only shows errors; a valid one prepends the donation, stores the list, updates the statistics, resets the form and closes the modal |
| `DonorDashboard.Dashboard.DeleteDonation` | src/components/DonorDashboard.jsx:167-174 | only a confirmed delete removes the donation, stores the list and updates the statistics |
| `SeekerDashboard.StatsOf` | src/components/SeekerDashboard.jsx:115-131 | counts every request and the pending or approved ones; received is the total of the completed ones; people served is the floor of 4·received |
| `SeekerDashboard.StatsOfNothing` | src/components/SeekerDashboard.jsx:14-19 | the statistics of no requests are the initial ones |
| `SeekerDashboard.ReceivedDefined` | src/components/SeekerDashboard.jsx:118-123 | received is a number exactly when every completed request's weight is |
| `SeekerDashboard.ReceivedIgnoresOpen` | src/components/SeekerDashboard.jsx:118-123 | requests that are not completed add nothing to received |
| `SeekerDashboard.StatsAfterCreate` | src/components/SeekerDashboard.jsx:177-188 | a new pending request is one more active request and leaves received unchanged |
| `SeekerDashboard.AddWeightsSwap` | src/components/SeekerDashboard.jsx:120-123 | the order in which two weights are added does not matter |
| `SeekerDashboard.SetStatusOfUnique` | src/components/SeekerDashboard.jsx:208-210 | with a unique id, the status update changes only that request |
| `SeekerDashboard.CountAround` | src/components/SeekerDashboard.jsx:117 | the count of a list around one request is the counts of its parts |
| `SeekerDashboard.FilterAround` | src/components/SeekerDashboard.jsx:118-119 | the filter of a list around one request is the filters of its parts |
| `SeekerDashboard.ReceivedAfterCompleting` | src/components/SeekerDashboard.jsx:118-123 | completing a request adds its weight to received |
| `SeekerDashboard.CompletingApproved` | src/components/SeekerDashboard.jsx:449-451 | completing an approved request lowers the active count by one, adds its weight to received and keeps the total |
| `SeekerDashboard.SeedQuantities` | src/utils/defaultData.js:87-124 | the seeded completed quantities are 20, 15 and 30 kg |
| `SeekerDashboard.SeedKilogramsTotal` | src/utils/defaultData.js:87-112 | those quantities add up to 65 |
| `SeekerDashboard.KilogramTotal` | src/components/SeekerDashboard.jsx:120-123 | requests of whole kilograms weigh the sum of those numbers |
| `SeekerDashboard.ThreeCompletedOneApproved` | src/utils/defaultData.js:76-132 | with three completed requests then one approved, the completed ones are the first three and one is active |
| `SeekerDashboard.SeedShapedStats` | src/components/SeekerDashboard.jsx:115-131 | any list shaped like the seed shows 4 requests, 65 kg, 260 people and 1 active |
| `SeekerDashboard.SeedStats` | src/utils/defaultData.js:76-132 | the seeded dashboard shows 4 requests, 65 kg received, 260 people served and 1 active |
| `SeekerDashboard.ApplyInput` | src/components/SeekerDashboard.jsx:133-138 | the edited field takes the value and every other field keeps its own |
| `SeekerDashboard.FormErrors` | src/components/SeekerDashboard.jsx:147-168 | only food type, quantity, location and purpose are ever checked |
| `SeekerDashboard.FoodTypeChecked` | src/components/SeekerDashboard.jsx:150-152 | the food type has an error exactly when it is blank |
| `SeekerDashboard.LocationChecked` | src/components/SeekerDashboard.jsx:158-160 | the location has an error exactly when it is blank |
| `SeekerDashboard.PurposeChecked` | src/components/SeekerDashboard.jsx:162-164 | the purpose has an error exactly when it is blank |
| `SeekerDashboard.QuantityChecked` | src/components/SeekerDashboard.jsx:154-156 | the quantity has an error exactly when it is empty or parses to at most 0 |
| `SeekerDashboard.UnitAndUrgencyNotChecked` | src/components/SeekerDashboard.jsx:147-168 | unit and urgency never affect validation |
| `SeekerDashboard.NewRequest` | src/components/SeekerDashboard.jsx:177-183 | the new request is pending, carries the seeker's name and the clock as id and creation time, and otherwise is the form |
| `SeekerDashboard.StatusBadge` | src/components/SeekerDashboard.jsx:225-232 | approved is info, completed is success, and every other status is a warning |
| `SeekerDashboard.UrgencyBadge` | src/components/SeekerDashboard.jsx:234-241 | low is info, high is danger, and every other urgency is a warning |
| `SeekerDashboard.Dashboard.constructor` | src/components/SeekerDashboard.jsx:9-28 | everything starts empty, with the initial statistics and the empty form (urgency medium) |
| `SeekerDashboard.Dashboard.Mount` | src/components/SeekerDashboard.jsx:31-79 | each of the three keys is loaded or seeded from the defaults; the statistics follow the loaded requests |
| `SeekerDashboard.Dashboard.LoadAll` | src/components/SeekerDashboard.jsx:31-79 | the mount effect for given seeds: requests, then notifications, then messages |
| `SeekerDashboard.Dashboard.LoadRequests` | src/components/SeekerDashboard.jsx:32-47 | requests are loaded or seeded; the statistics follow, and an unreadable value changes nothing |
| `SeekerDashboard.Dashboard.HandleInputChange` | src/components/SeekerDashboard.jsx:133-145 | the field takes the value and its error is blanked |
| `SeekerDashboard.Dashboard.ValidateForm` | src/components/SeekerDashboard.jsx:147-168 | the error map is rebuilt, and the form passes exactly when it is empty |
| `SeekerDashboard.Dashboard.HandleSubmit` | src/components/SeekerDashboard.jsx:170-200 | an invalid form only shows errors; a valid one prepends the pending request, stores the list, updates the statistics, resets the form and closes the modal |
| `SeekerDashboard.Dashboard.UpdateRequestStatus` | src/components/SeekerDashboard.jsx:207-214 | the status changes by id, the list is stored and the statistics follow |
| `SeekerDashboard.Dashboard.DeleteRequest` | src/components/SeekerDashboard.jsx:216-223 | only a confirmed delete removes the request, stores the list and updates the statistics |
| `NotificationBell.ShowsBadge` | src/components/NotificationBell.jsx:54-56 | the badge shows exactly when some notification is unread |
| `NotificationBell.UnreadAfterMarkRead` | src/components/NotificationBell.jsx:13-15 | marking an id lowers the unread count by the number of unread notifications with that id, so it drops exactly when one of them is unread |
| `NotificationBell.TwoOfFourUnread` | src/components/NotificationBell.jsx:7 | four notifications of which the two newest are unread count 2 |
| `NotificationBell.SeedUnreadCount` | src/utils/defaultData.js:136-211 | both seeded bells start with an unread count of 2 |
| `NotificationBell.Icon` | src/components/NotificationBell.jsx:22-30 | each of the four known types has its own icon, and every other type gets the bell |
| `NotificationBell.ElapsedSince` | src/components/NotificationBell.jsx:32-44 | under a minute (future included) is "just now"; below an hour whole minutes, below a day whole hours, else whole days, each the floor of the difference |
| `NotificationBell.RenderInjective` | src/components/NotificationBell.jsx:40-43 | different elapsed times are shown as different texts |
| `NotificationBell.Render` | src/components/NotificationBell.jsx:40-43 | only the just-now bucket reads "Just now"; every other text ends in the unit letter and " ago" |
| `NotificationBell.FormatTime` | src/components/NotificationBell.jsx:32-44 | the text is "Just now" exactly when less than a minute has passed, and otherwise carries the letter of the unit chosen |
| `NotificationBell.FormatTimeDistinguishes` | src/components/NotificationBell.jsx:32-44 | two timestamps show the same text exactly when they fall in the same bucket |
| `NotificationBell.Bell.constructor` | src/components/NotificationBell.jsx:5 | the dropdown starts closed |
| `NotificationBell.Bell.Toggle` | src/components/NotificationBell.jsx:9-11 | the bell button flips the dropdown |
| `NotificationBell.Bell.Close` | src/components/NotificationBell.jsx:61 | the overlay closes the dropdown |
| `NotificationBell.Bell.HandleMarkAsRead` | src/components/NotificationBell.jsx:13-15 | a click marks the notification read through the dashboard, and the badge drops by the unread ones with that id |
| `NotificationBell.Bell.HandleClearAll` | src/components/NotificationBell.jsx:17-20 | Clear All (shown only for a nonempty list) empties the list, hides the badge and closes the dropdown |
| `MessageCenter.ShowsBadge` | src/components/MessageCenter.jsx:59-61 | the badge shows exactly when some message is unread |
| `MessageCenter.UnreadAfterMarkRead` | src/components/MessageCenter.jsx:8 | marking an id lowers the unread count by the number of unread messages with that id |
| `MessageCenter.TwoOfThreeUnread` | src/components/MessageCenter.jsx:8 | three messages of which the two newest are unread count 2 |
| `MessageCenter.SeedUnreadCount` | src/utils/defaultData.js:214-379 | both seeded message centers start with an unread count of 2 |
| `MessageCenter.Avatar` | src/components/MessageCenter.jsx:40-49 | each of the five known senders has its own avatar, and every other sender gets the silhouette |
| `MessageCenter.Center.constructor` | src/components/MessageCenter.jsx:5-6 | the dropdown starts closed with nothing selected |
| `MessageCenter.Center.Toggle` | src/components/MessageCenter.jsx:10-12 | the button flips the dropdown and keeps the selection |
| `MessageCenter.Center.Close` | src/components/MessageCenter.jsx:66-77 | the overlay or the close button closes the dropdown and keeps the selection |
| `MessageCenter.Center.HandleSelectMessage` | src/components/MessageCenter.jsx:14-19 | the clicked message becomes the selection and is shown in full while the dropdown is open; it is marked read, lowering the badge, exactly when it was unread, and otherwise nothing else changes |
| `MessageCenter.Center.HandleBack` | src/components/MessageCenter.jsx:21-23 | the selection is cleared, so the dropdown shows the list again, and the dropdown stays as it was |
| `MessageCenter.Center.HandleDelete` | src/components/MessageCenter.jsx:25-28 | the shown message is deleted through the dashboard, no message with its id remains, and the selection is cleared so the list is shown |
| `Login.EmailPatternComputed` | src/components/Login.jsx:40 | the computed email test accepts exactly the addresses the regular expression matches |
| `Login.ValidEmailMatches` | src/components/Login.jsx:40 | an address the computed test accepts matches the pattern |
| `Login.MatchingEmailValid` | src/components/Login.jsx:40 | an address matching the pattern passes the computed test |
| `Login.EmailError` | src/components/Login.jsx:37-42 | an empty email gives "Email is required"; otherwise there is no error exactly when the pattern matches |
| `Login.PasswordError` | src/components/Login.jsx:44-49 | an empty password gives "Password is required"; otherwise there is no error exactly when it has at least 6 characters |
| `Login.FormErrors` | src/components/Login.jsx:34-53 | email and password are checked independently, each with its own message, and no general error is set |
| `Login.FormAccepted` | src/components/Login.jsx:51-52 | the form passes exactly when the email matches the pattern and the password has at least 6 characters |
| `Login.Authenticate` | src/components/Login.jsx:66-80 | sign-in succeeds exactly for the selected role's demo pair, with that role, the entered email and the role's display name |
| `Login.OtherRoleRefused` | src/components/Login.jsx:14-17 | the other role's demo pair is refused |
| `Login.ExampleAddress` | src/components/Login.jsx:40 | a lower-case name at `example.com` matches the pattern |
| `Login.ExampleCredentialsPass` | src/components/Login.jsx:34-53 | such an address with a 6-character password passes the form |
| `Login.DemoSignsIn` | src/components/Login.jsx:14-17 | each demo pair passes the form and signs in as its own role |
| `Login.ApplyInput` | src/components/Login.jsx:19-24 | the edited field takes the value and the other keeps its own |
| `Login.LoginScreen.constructor` | src/components/Login.jsx:5-11 | the screen starts on the donor role, with an empty form, no errors and no loading |
| `Login.LoginScreen.HandleInputChange` | src/components/Login.jsx:19-32 | the field takes the value and its error is blanked |
| `Login.LoginScreen.ValidateForm` | src/components/Login.jsx:34-53 | the error map is rebuilt step by step, and the form passes exactly when the email matches and the password is long enough |
| `Login.LoginScreen.HandleSubmit` | src/components/Login.jsx:55-84 | an invalid form only shows errors; a valid one signs in with the demo pair or shows only the general error, and is not loading afterwards |
| `Login.LoginScreen.FillDemoCredentials` | src/components/Login.jsx:86-93 | the form takes the role's demo pair, errors are cleared, and the pair passes validation |
| `Login.LoginScreen.SelectUserType` | src/components/Login.jsx:115-119 | a role button selects the role and empties both fields and all errors |
| `App.Route` | src/App.jsx:54-84 | `/` shows the login page without a user and redirects to the user's dashboard otherwise; each dashboard renders only for its own role and otherwise redirects to `/`; any other path redirects to `/` |
| `App.EveryPathSettles` | src/App.jsx:54-84 | from any path, at most two redirects reach the login page when signed out and the user's own dashboard when signed in |
| `App.Shell.constructor` | src/App.jsx:9-10 | the shell starts with no user, loading |
| `App.Shell.RestoreSession` | src/App.jsx:19-28 | a stored user is taken over; a stored value that is not a user is removed; loading ends |
| `App.Shell.Mount` | src/App.jsx:13-29 | storage is cleared first, so no session is restored, and loading ends with the store empty |
| `App.Shell.HandleLogin` | src/App.jsx:31-34 | the user becomes the session and is stored under `currentUser` |
| `App.Shell.HandleLogout` | src/App.jsx:36-39 | the session ends and `currentUser` is removed |

## Left out

- Rendering, CSS classes, modal and dropdown markup, and `StatCard.jsx`: presentation only.
- `toFixed(1)` formatting of the statistics: the model states the exact values before formatting.
- Floating-point arithmetic. Quantities are exact reals, so rounding in IEEE sums is not modelled.
- `parseFloat` is modelled on decimal text: white space, a sign, digits, a point, digits. Exponents, `Infinity` and hexadecimal prefixes are not.
- Dates are whole day numbers in UTC. `toISOString().split('T')[0]`, time zones and `toLocaleDateString`/`toLocaleString` are not modelled. Neither is the message time text (`MessageCenter.jsx:30-38`).
- JSON serialisation. The store holds typed values. A value of the wrong record shape under a key is read as unreadable, where JavaScript would load it anyway.
- `sessionStorage.clear()` on mount: nothing else reads or writes `sessionStorage`.
- The separate clock readings inside each seed generator (`new Date()` once, then `Date.now()` per record): they are all taken to be the same `now`, so the few milliseconds between them are not modelled.
- The 800 ms `setTimeout` in sign-in. Its callback runs at once, at the clock reading passed in. Edits made during the delay are therefore not modelled.
- `window.confirm` is the boolean `confirmed`. `alert` in `claimDonation` and the mock list of `loadAvailableDonations` have no state effect and are left out.
- Lengths are counted in characters, not UTF-16 code units. They differ only for characters outside the Basic Multilingual Plane.
- Lookups such as `icons[type]` would also find `Object.prototype` keys (`"toString"`); the model maps every unknown key to the default.
- `DonorDashboard.Dashboard.ValidateForm`: the error map is computed as a whole (`FormErrors`) rather than key by key as the code builds it. The result is the same map.
- `SeekerDashboard.Dashboard.ValidateForm`: computed as a whole, like the donor form.
- `Lists.Filter` carries no contract of its own. Its meaning is stated by `Lists.FilterMembers`, `Lists.FilterAppend` and `Lists.FilterAll`.
- `MessageCenter.Center.HandleSelectMessage` requires the message to be in the list, since it is only reachable by clicking a listed message.
- `NotificationBell.Bell.HandleClearAll` requires a nonempty list, since the button only exists then.
- `Login.LoginScreen.HandleSubmit` does not model the disabled submit button while loading.
