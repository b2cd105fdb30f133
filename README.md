# SmartDocs core, modelled in Dafny

SmartDocs is a personal document and bill vault written as a React web app
on top of a hosted backend. Its screens contain a few small pieces of
deterministic logic, and this project models and verifies them:

- **Vault PIN lock** (`Vault`, `vault.dfy`). The security provider keeps the
  flags `isLocked`, `hasPin` and `isBiometricsEnabled`. It keeps the per-user
  keys `sd_pin_<id>` and `sd_bio_<id>` in persistent storage and
  `sd_unlocked_<id>` in tab storage. It offers `init`, `lock`, `unlock`,
  `setPin` and `setBiometricsEnabled`. Each operation is a pure step
  function on `VaultState`, and class `VaultLock` updates its fields and two
  `map<string, string>` stores in place. Its methods are proved equal to
  those step functions.
- **Lock screen** (`LockPad`, `lock_screen.dfy`). A keypad fills a buffer of
  at most six digits, the effect calls `unlock` once the buffer holds six,
  and a rejected PIN empties the buffer and raises the error flag.
- **Bills** (`Bills`, `bills.dfy`). Covers:
  - status badges;
  - the pending total;
  - the due-soon list and the mount toast;
  - file validation;
  - adding, marking paid and deleting bills.
- **Notifications** (`Notifications`, `notifications.dfy`). Covers:
  - the reminder pass, which prepends deduplicated reminder and overdue
    notices for unpaid bills;
  - mark-read, delete and mark-all-read, and the unread count;
  - the relative-time labels.
- **Documents** (`Documents`, `documents.dfy`). Covers:
  - upload validation;
  - storage-path and file-name construction;
  - the public URL of a stored file, and recovering the storage path from
    that URL;
  - the download route and the file-type icon;
  - the page's form and dialog state.
- **Document paging** (`DocumentPages`, `pagination.dfy`): the row range each
  page requests and the next-page rule of the infinite query.
- **Profile** (`Profile`, `profile.dfy`). Covers:
  - the PIN setup flow, where changing an existing PIN through the setup
    steps needs an e-mailed six-digit code, while turning the PIN switch
    off clears it with no code;
  - the PIN and biometrics switches;
  - the password and avatar checks and the display-name fallback.
- **Auth** (`Auth`, `auth.dfy`): the demonstration phone check, with code
  generation, the 30-second resend cooldown and code matching, and the
  initial sign-in / sign-up mode.

`text.dfy` holds the string operations these need, with JavaScript
semantics except for lengths, which count characters rather than UTF-16
code units (see "## Left out"). `split` keeps empty pieces, `pop()` takes the last piece, and
`includes`, `startsWith` and `indexOf` are also covered, as is the decimal
rendering of naturals. `files.dfy` holds the file description that the
upload checks share.

Modelling conventions:
- Calendar dates are integer day numbers, so "days until due" is
  `dueDay - today`.
- Elapsed time is an integer number of seconds.
- Amounts are integers in minor currency units.
- Clock readings, random draws, and the outcome of every backend call are
  parameters.

## Model

| member | source | states |
|---|---|---|
| Vault.InitStep | src/components/security/SecurityProvider.tsx:23-40 | with a user, `hasPin` iff a non-empty PIN is stored, biometrics iff the stored flag is exactly "true", locked iff already locked or (PIN stored and tab marker not "true"); without a user nothing changes; storage is never written |
| Vault.LockStep | src/components/security/SecurityProvider.tsx:42-47 | no-op without a user or without a PIN; otherwise removes the tab marker and locks |
| Vault.UnlockStep | src/components/security/SecurityProvider.tsx:49-59 | succeeds iff a user is present and the stored PIN equals the input; success sets the marker to "true" and unlocks, failure changes nothing |
| Vault.SetPinStep | src/components/security/SecurityProvider.tsx:61-74 | a non-empty PIN is stored, the marker set and `hasPin` raised with `isLocked` kept; the empty PIN removes PIN and marker and clears `hasPin` and `isLocked`; nothing without a user |
| Vault.SetBiometricsStep | src/components/security/SecurityProvider.tsx:76-80 | writes `String(enabled)` under the user's bio key and sets the flag; nothing without a user |
| Vault.OverlayShownOnlyWithPin | src/components/security/SecurityProvider.tsx:94-95 | in a coherent state the lock screen is up only while a PIN is stored; a successful unlock and clearing the PIN take it down, and locking raises it iff a PIN is stored |
| Vault.BiometricsRoundTrip | src/components/security/SecurityProvider.tsx:27-79 | the flag written by `setBiometricsEnabled(b)` is read back as `b` by a later init |
| Vault.UnlockNeedsStoredPin | src/components/security/SecurityProvider.tsx:49-58 | without a user or a stored PIN, unlock fails and changes nothing |
| Vault.LockIdempotent | src/components/security/SecurityProvider.tsx:42-47 | locking twice is locking once |
| Vault.OperationsTouchOnlyOwnKeys | src/components/security/SecurityProvider.tsx:23-80 | every operation leaves every key outside the current user's three keys unchanged in both stores |
| Vault.KeysOfOthersDisjoint | src/components/security/SecurityProvider.tsx:26-30 | the key sets of two different users are disjoint |
| Vault.OtherUsersUnaffected | src/components/security/SecurityProvider.tsx:42-80 | operations for one user leave what init reads for any other user unchanged |
| Vault.UnlockSurvivesReinit | src/components/security/SecurityProvider.tsx:29-38 | after a successful unlock, re-running init in the same tab does not lock |
| Vault.SetPinLocksNextSession | src/components/security/SecurityProvider.tsx:61-67 | a new PIN leaves the current tab unlocked but a fresh session (empty tab storage) starts locked |
| Vault.ClearPinUnlocksForGood | src/components/security/SecurityProvider.tsx:68-73 | after removing the PIN, every later session starts unlocked and without a PIN |
| Vault.CoherenceKept | src/components/security/SecurityProvider.tsx:23-80 | the first init makes the flags mirror the stores (and locked only with a PIN), and every operation keeps that |
| Vault.LockUnlockScenario | src/components/security/SecurityProvider.tsx:42-67 | set PIN, unlock, lock, wrong PIN, right PIN: the lock states come out as expected |
| Vault.VaultLock.constructor | src/components/security/SecurityProvider.tsx:17-40 | flags start false, then the init effect runs |
| Vault.VaultLock.Init | src/components/security/SecurityProvider.tsx:23-40 | the new state is `InitStep` of the old; a lock is never released by init |
| Vault.VaultLock.ChangeUser | src/components/security/SecurityProvider.tsx:18-40 | the effect re-runs for the new user |
| Vault.VaultLock.Lock | src/components/security/SecurityProvider.tsx:42-47 | the new state is `LockStep` of the old |
| Vault.VaultLock.Unlock | src/components/security/SecurityProvider.tsx:49-59 | returns true iff the stored PIN equals the input; the new state is `UnlockStep` of the old |
| Vault.VaultLock.SetPin | src/components/security/SecurityProvider.tsx:61-74 | the new state is `SetPinStep` of the old |
| Vault.VaultLock.SetBiometricsEnabled | src/components/security/SecurityProvider.tsx:76-80 | the new state is `SetBiometricsStep` of the old |
| LockPad.Press | src/components/security/LockScreen.tsx:14-19 | a digit is appended and the error cleared only while the buffer is shorter than six; a full buffer is unchanged; a well-formed buffer stays well-formed |
| LockPad.DropLast | src/components/security/LockScreen.tsx:22 | removes exactly the last character; the empty buffer stays empty |
| LockPad.Erase | src/components/security/LockScreen.tsx:21-24 | delete shortens the buffer by one (not below zero) and clears the error |
| LockPad.Settle | src/components/security/LockScreen.tsx:26-38 | `unlock` is called with the buffer exactly when it holds six characters; a rejection empties the buffer and raises the error; the vault changes only by `unlock` |
| LockPad.RunKeepsBuffer | src/components/security/LockScreen.tsx:14-31 | after any key sequence the buffer is at most six digits, and every PIN handed to `unlock` is six digits |
| LockPad.RunOnlyUnlocks | src/components/security/LockScreen.tsx:26-31 | key presses never touch persistent storage, `hasPin` or biometrics, and never lock |
| LockPad.CompletingBufferMakesOneAttempt | src/components/security/LockScreen.tsx:26-28 | typing the digits that fill the buffer makes exactly one unlock attempt, with the whole buffer |
| LockPad.FilledIndicatorsCount | src/components/security/LockScreen.tsx:90 | the number of filled indicators equals the buffer length (capped at six) |
| LockPad.LockScreen.constructor | src/components/security/LockScreen.tsx:10-11 | the screen starts with an empty buffer and no error |
| LockPad.BiometricButtonFollowsSetting | src/components/security/LockScreen.tsx:115-116 | after the biometrics switch is set and the provider re-reads storage, the biometric button is usable iff the new setting is on, and no key sequence on the pad changes that |
| LockPad.LockScreen.SettleBuffer | src/components/security/LockScreen.tsx:26-38 | pad, vault and attempt are what `Settle` prescribes |
| LockPad.LockScreen.NumberClick | src/components/security/LockScreen.tsx:14-19 | pad, vault and attempt are what one digit key prescribes in `Step` |
| LockPad.LockScreen.DeleteClick | src/components/security/LockScreen.tsx:21-24 | pad, vault and attempt are what the delete key prescribes in `Step` |
| Bills.StatusOf | src/pages/Bills.tsx:270-282 | exactly one status: Paid iff paid; Overdue iff unpaid with days < 0; Due Soon iff unpaid with 0 ≤ days ≤ 7; Upcoming iff unpaid with days > 7 |
| Bills.PendingIsUnpaidSum | src/pages/Bills.tsx:288 | the `reduce` total equals the sum of the amounts of the unpaid bills |
| Bills.PendingAfterAdd | src/pages/Bills.tsx:173 | appending an unpaid bill raises the pending total by its amount |
| Bills.DueSoonBills | src/pages/Bills.tsx:289-292 | contains exactly the listed unpaid bills with 0 ≤ days ≤ 7, in their list order (a sub-sequence of the input) |
| Bills.DueSoonAppend | src/pages/Bills.tsx:289-292 | filtering distributes over concatenation, for both the due-soon list and the toast list, so order and multiplicity are those of the input |
| Bills.DueSoonSingle | src/pages/Bills.tsx:289-292 | a single bill contributes one entry iff it is unpaid and due within 0..7 days, none otherwise |
| Bills.DueSoonListMatchesBadge | src/pages/Bills.tsx:289-292 | a bill is in the due-soon list iff it is listed and its badge is Due Soon |
| Bills.ToastBills | src/pages/Bills.tsx:99-103 | contains exactly the listed unpaid bills with 0 < days ≤ 7 |
| Bills.ToastSkipsDueToday | src/pages/Bills.tsx:102 | the toast's bills are due-soon bills, and the two differ exactly by the unpaid bills due today |
| Bills.CheckBillFile | src/pages/Bills.tsx:113-134 | accepted iff pdf/png/jpeg/jpg and at most 10 MiB; the type is checked first |
| Bills.NewBill | src/pages/Bills.tsx:159-171 | the new bill carries the form's type and due date, the given id, amount and user, and is unpaid with no reminder sent |
| Bills.MarkPaid | src/pages/Bills.tsx:244-246 | same length; exactly the bills with that id become paid with the new update time, all others unchanged |
| Bills.RemoveBill | src/pages/Bills.tsx:208 | keeps exactly the bills with a different id |
| Bills.RemoveBillAppend | src/pages/Bills.tsx:208 | filtering distributes over concatenation, so the rest keep their order |
| Bills.MarkPaidLikeRemove | src/pages/Bills.tsx:244-288 | after marking a bill paid the pending total is what it would be with that bill deleted |
| Bills.MountToastAsWrittenNeverFires | src/pages/Bills.tsx:75-110 | as written, the mount toast counts over the still-empty bill list and never fires |
| Bills.MountToastMissesDueBill | src/pages/Bills.tsx:97-105 | an unpaid bill due in three days gets no toast as written, one with the corrected count |
| Bills.MountToastCount | src/pages/Bills.tsx:97-105 | the toast fires iff some loaded unpaid bill has 0 < days ≤ 7 |
| Bills.BillsPage.constructor | src/pages/Bills.tsx:59-73 | no bills, the empty form with frequency "Monthly", the dialog closed |
| Bills.BillsPage.Load | src/pages/Bills.tsx:80-95 | with a user and stored bills the list becomes the stored bills, otherwise it is kept; the toast count is the corrected one over the loaded list |
| Bills.BillsPage.FileChange | src/pages/Bills.tsx:113-138 | the form takes the file only if `CheckBillFile` accepts it |
| Bills.BillsPage.Upload | src/pages/Bills.tsx:140-190 | an incomplete form is refused, then a missing user; otherwise the new bill is appended at the end, the form reset and the dialog closed |
| Bills.BillsPage.MarkAsPaid | src/pages/Bills.tsx:239-248 | the list becomes `MarkPaid` of the old list when a user is present |
| Bills.BillsPage.Delete | src/pages/Bills.tsx:203-210 | the list becomes `RemoveBill` of the old list when a user is present |
| Notifications.PassPrepends | src/pages/Notifications.tsx:95-141 | the old list is an untouched suffix of the new one, and every added entry is an unread reminder (0 ≤ days ≤ 7) or warning (days < 0) for an unpaid bill, with the fixed id prefix |
| Notifications.PaidBillsAddNothing | src/pages/Notifications.tsx:96 | paid bills never produce notifications |
| Notifications.PassCovers | src/pages/Notifications.tsx:103-139 | afterwards every unpaid bill has the notice its due date calls for |
| Notifications.CoveredPassIsIdentity | src/pages/Notifications.tsx:105-127 | when every notice already exists, the pass adds nothing |
| Notifications.PassIdempotent | src/pages/Notifications.tsx:105-127 | running the check again with the same bills and day adds nothing |
| Notifications.PassKeepsIdsDistinct | src/pages/Notifications.tsx:104-138 | the pass never creates a duplicate id |
| Notifications.PassRaisesUnreadCount | src/pages/Notifications.tsx:114-134 | the unread count grows by exactly the number of added notices |
| Notifications.ReminderPass | src/pages/Notifications.tsx:95-141 | the `forEach`/`unshift` loop computes `Pass` |
| Notifications.MarkAsRead | src/pages/Notifications.tsx:172-174 | same length; only entries with that id become read, all others unchanged |
| Notifications.MarkAsReadCount | src/pages/Notifications.tsx:172-174 | marking an id read leaves the unread count of deleting it |
| Notifications.Delete | src/pages/Notifications.tsx:187 | keeps exactly the entries with a different id |
| Notifications.DeleteAppend | src/pages/Notifications.tsx:187 | filtering distributes over concatenation, so the rest keep their order |
| Notifications.DeleteAbsent | src/pages/Notifications.tsx:187 | deleting an absent id changes nothing |
| Notifications.MarkAllAsRead | src/pages/Notifications.tsx:205 | same length; every entry is the old one marked read |
| Notifications.MarkAllLeavesNoneUnread | src/pages/Notifications.tsx:205-261 | after mark-all-read the unread count is 0 |
| Notifications.UnreadCountZero | src/pages/Notifications.tsx:261 | the unread count is 0 iff every entry is read |
| Notifications.AgeOf | src/pages/Notifications.tsx:247-252 | below 60 s "just now", below an hour whole minutes, below a day whole hours, below a week whole days, otherwise an absolute date; each count is the floor of the elapsed time |
| Notifications.AgeLabelInjective | src/pages/Notifications.tsx:249-252 | distinct relative buckets are shown with distinct texts |
| Notifications.Welcome | src/pages/Notifications.tsx:55-65 | the default list is one unread info notice with id "1" |
| Notifications.NotificationsPage.constructor | src/pages/Notifications.tsx:21 | the page starts with no notifications |
| Notifications.NotificationsPage.CheckBillReminders | src/pages/Notifications.tsx:76-148 | without a user or stored bills nothing changes; otherwise the stored list becomes `Pass` of the bills over it and is shown |
| Notifications.NotificationsPage.Load | src/pages/Notifications.tsx:36-74 | runs the check, then shows the stored list, or stores and shows the welcome list when none exists |
| Notifications.NotificationsPage.MarkRead | src/pages/Notifications.tsx:167-180 | shown and stored list become `MarkAsRead` of the shown list |
| Notifications.NotificationsPage.DeleteNotification | src/pages/Notifications.tsx:182-198 | shown and stored list become `Delete` of the shown list |
| Notifications.NotificationsPage.MarkAllRead | src/pages/Notifications.tsx:200-216 | shown and stored list become `MarkAllAsRead` of the shown list |
| Notifications.NotificationsPage.Unread | src/pages/Notifications.tsx:261 | the unread count of the shown list |
| Documents.CheckDocFile | src/pages/Documents.tsx:99-132 | accepted iff (the type is one of the eight listed or starts with "image/") and the size is at most 10 MiB; the type is checked first |
| Documents.PickFile | src/pages/Documents.tsx:134 | an accepted file is taken and names the document only when the name field is empty; a refused file changes nothing |
| Documents.CheckUpload | src/pages/Documents.tsx:154-170 | ready iff type and file are present and a custom type has a name; the missing type or file is reported first |
| Documents.UploadButtonMatchesGuards | src/pages/Documents.tsx:453-460 | the upload button is enabled exactly when the upload guards pass, and never while uploading |
| Text.FileExtension | src/pages/Documents.tsx:177 | the extension is a suffix of the file name without any "." |
| Documents.StoragePath | src/pages/Documents.tsx:179 | the path starts with `<userId>/` |
| Documents.StoragePathKeepsExtension | src/pages/Documents.tsx:177-179 | the stored file keeps the original file's extension |
| Documents.FileUrl | src/pages/Documents.tsx:73-74 | a path starting with "http" is kept verbatim, any other is appended to the base URL and the documents marker |
| Documents.ToDocument | src/pages/Documents.tsx:68-79 | a listed document carries its row's fields and the derived URL |
| Documents.StoredPathOf | src/pages/Documents.tsx:255-258 | a recovered path comes from a URL that mentions public storage and contains no documents marker itself |
| Documents.PlainBaseQualifies | src/pages/Documents.tsx:74 | a base URL without "/s" puts the first marker right after the base |
| Documents.StoredPathRoundTrip | src/pages/Documents.tsx:331-334 | recovering the path from a derived URL gives back the stored path, for a path that is not an "http" link and has no marker |
| Documents.DerivedUrlIsPublic | src/pages/Documents.tsx:73-74 | a derived URL always mentions public storage |
| Documents.ExternalLinkHasNoStoredPath | src/pages/Documents.tsx:331-336 | a legacy external link yields no file to remove |
| Documents.RouteDownload | src/pages/Documents.tsx:354-362 | opened in a new tab iff the URL starts with "http" and does not mention public storage; otherwise downloaded from storage by path and name |
| Documents.ListedDownloadRoute | src/pages/Documents.tsx:356 | for a listed document, the route depends only on its stored path |
| Documents.FindById | src/pages/Documents.tsx:328 | the first document with that id, or none iff no document has it |
| Documents.PlanDelete | src/pages/Documents.tsx:323-338 | deletes iff a user is present and the id is listed, removing the file recovered from the URL |
| Documents.DeleteRemovesOwnFile | src/pages/Documents.tsx:328-334 | in any listing whose first document with the id is the stored one, deleting that id removes exactly its own storage path |
| Documents.PlanUpdate | src/pages/Documents.tsx:243-300 | nothing without an edited document, a type or a user; a rename without a new file; otherwise a replacement under `<userId>/` that removes the recovered old path and falls back to the file's name |
| Documents.DocumentNeverSheet | src/pages/Documents.tsx:372-373 | as written, any type that mentions "document" never gets the spreadsheet icon |
| Documents.XlsxSpelling | src/pages/Documents.tsx:110 | the accepted xlsx MIME type is spelled with "officedocument" |
| Documents.XlsxShownAsWord | src/pages/Documents.tsx:369-375 | the xlsx type mentions "spreadsheet" yet does not get the spreadsheet icon as written |
| Documents.FileIcon | src/pages/Documents.tsx:369-375 | the corrected order (spreadsheet before word): each of the five icons is chosen iff the type mentions its keywords and none of the earlier ones |
| Documents.FileIconIntended | src/pages/Documents.tsx:369-375 | the corrected order gives spreadsheet types the spreadsheet icon and word types the word icon, and differs from the written order only on spreadsheets shown as word |
| Documents.RowFor | src/pages/Documents.tsx:205-211 | the inserted row has the storage path, the form's type and the name fallback to the file's name |
| Documents.UploadResult | src/pages/Documents.tsx:153-230 | refused iff the guards fail, then no user, then a storage failure at the generated path, then an insert failure; uploaded iff guards, user and both backend calls succeed |
| Documents.DocumentsPage.constructor | src/pages/Documents.tsx:81-93 | empty form, nothing selected or edited, all dialogs closed |
| Documents.DocumentsPage.FileChange | src/pages/Documents.tsx:99-136 | the form becomes `PickFile` of the old form |
| Documents.DocumentsPage.Edit | src/pages/Documents.tsx:138-146 | the document is edited with its name and type, no file, edit dialog open |
| Documents.DocumentsPage.ResetForm | src/pages/Documents.tsx:148-151 | empty form, nothing edited |
| Documents.DocumentsPage.View | src/pages/Documents.tsx:364-367 | the document is selected and the view dialog open |
| Documents.DocumentsPage.Upload | src/pages/Documents.tsx:153-241 | outcome is `UploadResult`; only a full success resets the form and closes the dialog |
| Documents.DocumentsPage.Update | src/pages/Documents.tsx:243-321 | the plan is `PlanUpdate`; only a planned and successful update resets the form and closes the dialog |
| DocumentPages.PageRangesTile | src/integrations/supabase/hooks/useDocuments.ts:13-14 | each page spans exactly 20 rows and the next page starts right after it |
| DocumentPages.RowOnOnePage | src/integrations/supabase/hooks/useDocuments.ts:13-14 | every row index lies in the range of exactly one page |
| DocumentPages.QueryFor | src/integrations/supabase/hooks/useDocuments.ts:9-21 | fails iff there is no user; otherwise asks for the user's rows from p·20 to (p+1)·20−1 inclusive, a 20-row range starting at a multiple of 20 |
| DocumentPages.NextPageParam | src/integrations/supabase/hooks/useDocuments.ts:26-29 | a next page exists iff the last page has exactly 20 rows, and it is the number of loaded pages |
| DocumentPages.Page | src/integrations/supabase/hooks/useDocuments.ts:13-21 | a page is the requested slice of the rows, at most 20 long |
| DocumentPages.LoadFromCovers | src/integrations/supabase/hooks/useDocuments.ts:26-30 | following the next-page rule fetches every remaining row once and in order |
| DocumentPages.LoadAllCovers | src/integrations/supabase/hooks/useDocuments.ts:26-30 | starting from page 0, the flattened pages are exactly the user's rows, in `rows / 20 + 1` requests |
| Profile.SendCodeStep | src/pages/Profile.tsx:216-248 | without an e-mail the form is unchanged; otherwise the six-digit code is kept and Step 2 opens iff the mail was sent; the inputs are untouched |
| Profile.SaveStep | src/pages/Profile.tsx:250-276 | saves iff no PIN exists or the typed code equals the generated one; a save resets the steps and inputs, a refusal leaves the form as it was |
| Profile.NoReplacementWithoutMailedCode | src/pages/Profile.tsx:557-628 | with a PIN in place and Step 2 closed, no sequence of actions on the setup steps saves a PIN unless one of them e-mailed a code, as long as the PIN switch is not turned off |
| Profile.SwitchOffReplacesWithoutCode | src/pages/Profile.tsx:491-511 | turning the PIN switch off clears an existing PIN, after which "Save PIN Now" stores a new one with no code generated or mailed |
| Profile.ChangePinScenario | src/pages/Profile.tsx:549-622 | open, type a PIN, mail the code, type a code, verify: saved iff the typed code is the mailed one, and then the form is reset; without a PIN the first submit saves |
| Profile.CheckPassword | src/pages/Profile.tsx:158-176 | accepted iff the two entries match and have at least 6 characters; a mismatch is reported first |
| Profile.CheckAvatar | src/pages/Profile.tsx:92-111 | accepted iff png/jpeg/jpg/webp and at most 2 MiB; the type is checked first |
| Profile.AvatarPath | src/pages/Profile.tsx:116-117 | the avatar lives at `<userId>/avatar.` plus the picked file's extension |
| Profile.DisplayName | src/pages/Profile.tsx:50 | full name, else name (each only when non-empty), else the e-mail before its first "@", else "" |
| Profile.NameFromEmail | src/pages/Profile.tsx:50 | without a name, exactly the local part of the address is shown |
| Text.FirstPiece | src/pages/Profile.tsx:50 | the first piece of a split is the text before the first separator, or all of it |
| Profile.PinSettings.constructor | src/pages/Profile.tsx:30-34 | no step open, empty inputs, no generated code |
| Profile.PinSettings.TypePin | src/pages/Profile.tsx:570-572 | the PIN input holds at most six characters; while Step 1 is open this is `Act` of `EnterPin` |
| Profile.PinSettings.TypeCode | src/pages/Profile.tsx:608-610 | the code input holds at most six characters; while Step 2 is open this is `Act` of `EnterCode` |
| Profile.PinSettings.TogglePin | src/pages/Profile.tsx:493-511 | switching off calls `setPin("")`, switching on opens Step 1 |
| Profile.PinSettings.ToggleBiometrics | src/pages/Profile.tsx:526-528 | the vault becomes `SetBiometricsStep` of the old |
| Profile.PinSettings.StartChange | src/pages/Profile.tsx:549 | opens Step 1; this is `Act` of `OpenSetup` |
| Profile.PinSettings.CancelStepOne | src/pages/Profile.tsx:561-563 | closes Step 1 and forgets the PIN; while Step 1 is open this is `Act` of `CancelSetup` |
| Profile.PinSettings.CancelStepTwo | src/pages/Profile.tsx:596-598 | closes Step 2 and forgets the code; while Step 2 is open this is `Act` of `CancelVerify` |
| Profile.PinSettings.SendVerificationCode | src/pages/Profile.tsx:216-248 | without an e-mail nothing happens; otherwise a six-digit code is generated and kept even if sending fails, and Step 2 opens only on success; the form becomes `SendCodeStep` of the old |
| Profile.PinSettings.VerifyAndSave | src/pages/Profile.tsx:250-276 | saves iff no PIN exists or the codes match; saving stores the new PIN and resets the flow, refusing changes nothing; the result and form are `SaveStep` of the old |
| Profile.PinSettings.SubmitStepOne | src/pages/Profile.tsx:583-584 | with a PIN in place it sends a code and saves nothing; without one it saves the PIN right away; result and form are `Act` of `SubmitPin` |
| Profile.PinSettings.SubmitStepTwo | src/pages/Profile.tsx:621-622 | saves iff no PIN exists or the typed code is the generated one; result and form are `Act` of `SubmitCode` |
| Text.SixDigitCode | src/pages/Profile.tsx:220 | the generated code is six digits with a value in 100000..999999 |
| Auth.InitialMode | src/pages/Auth.tsx:15-17 | sign-up iff the `mode` parameter is exactly "signup" |
| Auth.CooldownCountsDown | src/pages/Auth.tsx:85-90 | each firing lowers a positive cooldown by one, and it stops at 0 |
| Auth.ResendAfterThirtySeconds | src/pages/Auth.tsx:113-114 | the cooldown reaches 0 exactly after 30 firings |
| Auth.CheckOtp | src/pages/Auth.tsx:133-161 | a code of the wrong length is refused before comparison; verified iff six characters equal to the generated code, so never before a code exists |
| Auth.AuthForm.constructor | src/pages/Auth.tsx:15-37 | the initial mode, empty form, no code sent, no cooldown |
| Auth.SendBlockedDuringCooldown | src/pages/Auth.tsx:84-90 | after a send, for a valid number, the send button is usable again iff the one-second timer has fired at least 30 times |
| Auth.AuthForm.OtpInputShown | src/pages/Auth.tsx:491 | the code input is shown iff a code was sent and the phone is not yet verified; then a six-digit code is pending |
| Auth.AuthForm.InputChange | src/pages/Auth.tsx:70-81 | sets the named field; a phone change resets `otpSent`, `isPhoneVerified`, `otp` and `generatedOtp`, any other field leaves them |
| Auth.AuthForm.SendOtp | src/pages/Auth.tsx:93-131 | refused for an empty or short number; otherwise the code is a six-digit number in 100000..999999, `otpSent` is set and the cooldown is 30 |
| Auth.AuthForm.Tick | src/pages/Auth.tsx:85-90 | one firing of the cooldown timer |
| Auth.AuthForm.TypeOtp | src/pages/Auth.tsx:497-500 | the code input holds at most six characters |
| Auth.AuthForm.VerifyOtp | src/pages/Auth.tsx:133-171 | the result is `CheckOtp` of the typed and generated code; the phone becomes verified only on a match, which needs a sent code |
| Auth.AuthForm.SetMode | src/pages/Auth.tsx:361-371 | the sign-in / sign-up links switch the mode and nothing else |

## Left out

- Backend calls are not modelled: Supabase auth, storage, database and functions, `getUser`, `upload`, `insert`, `update`, `remove` and the e-mail function. Their outcome is a boolean parameter (`storageOk`, `insertOk`, `backendOk`, `sent`) and the signed-in user an `Option`.
- `localStorage` and `sessionStorage` are maps. The JSON encoding of bills and notifications is not modelled, and bill and notification lists are kept as values.
- Clocks, `Math.random` and timers are parameters: `today`, `now`, `nowMs`, `draw` and the random file-name part `random`. The cooldown timer is one `Tick` per firing. The 30-second reminder interval on the notifications page is not modelled; `CheckBillReminders` can be called any number of times.
- `Math.ceil` of millisecond differences is not modelled; days are whole day numbers. `toLocaleDateString` / `date-fns` date formatting is not modelled either: the absolute-date bucket is `OnDate`, with no text.
- Bill amounts are integer minor units, so `parseFloat` and `toFixed` are not modelled.
- Notification messages are left out because they repeat the bill fields as prose; only id, kind, title, time, read flag and user are kept.
- `checkDocumentUpdates` is an empty placeholder in the source, so it is not modelled.
- The simulated biometric unlock, `PublicKeyCredential` and haptic feedback are not modelled. In the model, biometrics is only the stored flag and the button's enablement.
- The asynchronous vault interface that `SecurityContext.tsx` declares has no implementation in these files, so it is not modelled.
- Toast texts and styling, JSX rendering, animations, routing, the loading and `uploading` / `isSendingOtp` / `isVerifyingOtp` spinners, sign-in / sign-up submission and OAuth are not modelled. Each handler runs to completion atomically, so the spinner flags are always false between steps.
- Bills.BillsPage.Load: the toast count it returns is the corrected `MountToastCount` over the loaded bills. As written, the page's mount counts over the still-empty list, so no toast ever fires (see Findings and `Bills.MountToastAsWrittenNeverFires`).
- LockPad.LockScreen: the provider unmounts the lock screen once the vault is unlocked (src/components/security/SecurityProvider.tsx:94), so every lock starts with a fresh, empty screen. The model's object is not unmounted: after a successful unlock it still holds the six entered digits, and a new lock corresponds to a new `LockScreen`.
- Profile.Run: the user's PIN flag is a fixed parameter of the run. Turning the PIN switch off is not one of its actions; `PinSettings.TogglePin` models that switch.
- Profile.NoReplacementWithoutMailedCode: the e-mail guarantee covers the setup steps only. The PIN switch on the same card clears the PIN with no code, and a new PIN can then be saved at once (`Profile.SwitchOffReplacesWithoutCode`), so the card as a whole lets a PIN be replaced without any code.
- Profile.CheckPassword, Auth.PhoneRejected and Auth.AuthForm.SendOtp: lengths count characters, not UTF-16 code units. A character outside the Basic Multilingual Plane counts once here, while the source's `length` counts it twice. For such input the six-character password minimum, the ten-character phone minimum and the six-character limits of the code inputs can therefore decide differently from the source; on text within the Basic Multilingual Plane they agree.
- The backend's ordering of document rows is an input: `rows` is already in the query's order.
- Documents.Listing (the `flatMap` over loaded pages) is stated only through `ToDocument` per row; its equality with the flattened pages is not proved.
- Documents.UploadResult: the generated file name is `<nowMs>_<random>.<ext>` with `random` standing for the base-36 random text; how the random text itself is made is not modelled.
- Profile.PinSettings.SendVerificationCode: the code's value comes from `draw`, the integer part of `Math.random() * 900000`, rather than from the floating-point computation.
- The profile-details update, logout and account deletion only call the backend, so they are not modelled.

## Findings

| source | as written | input that shows it | evidently intended | confidence | as-written member | corrected member |
|---|---|---|---|---|---|---|
| src/pages/Bills.tsx:75-110 | the mount effect calls `checkUpcomingBills` right after starting the asynchronous `loadBills`, so the filter runs over the initial empty `bills` and the "bills due soon" toast can never appear | a stored unpaid bill due in 3 days: no toast | the toast fires when a loaded unpaid bill is due within 1..7 days | not executed | Bills.MountToastMissesDueBill | Bills.MountToastCount |
| src/pages/Documents.tsx:372-373 | the word/document test comes before the excel/spreadsheet test, and the accepted xlsx type `application/vnd.openxmlformats-officedocument.spreadsheetml.sheet` contains "document" | an `.xlsx` upload: shown with the word icon | spreadsheets get the spreadsheet icon | not executed | Documents.XlsxShownAsWord | Documents.FileIconIntended |
