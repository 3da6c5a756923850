# rizzMate front-end core, modelled in Dafny

rizzMate is a dating web app written in React. This project models the logic behind its pages:

- **Session store** (`AuthProvider`). It holds the signed-in user, a loading flag and the browser's `localStorage`. The user record is kept there under the key `rizzmate_user`. The store covers restoring a session when the app loads, logging in (which derives a display name from the e-mail address), logging out and merging profile updates.
- **Route guard** (`ProtectedRoute`). From the loading and authenticated flags it decides between the loading spinner, nothing plus a redirect to `/`, and the protected page.
- **Profile editor form** (`ProfileEditor`). Single-field edits, adding an interest (trimmed, no duplicates), removing an interest, and submitting the whole form.
- **Discovery feed** (`Discover`). A cursor over the candidate profiles. A like or a pass starts an animation. When the animation completes, the cursor advances, wrapping from the last profile to the first. The progress dots follow the cursor.
- **Settings page** (`Settings`). A two-level table of boolean flags and the point update `updateSetting`.
- **Profile page** (`Profile`). The avatar initials drawn from the name, the edit dialog's five field handlers, and the save button.
- **Matches page** (`Matches`). How long ago a match was made, bucketed into "Today", "Yesterday", "N days ago" or the calendar date, and the "N mutual match(es)" heading.
- **Chat page** (`Chat`). The composer's blank-message guard, the Enter/Shift+Enter rule, the initial selection from the route parameter, and the lookups of the selected match and its messages.

Components that hold state in place are Dafny classes: `AuthProvider`, `ProfileEditor`, `DiscoverPage`, `SettingsPanel`, `ProfileView` and `ChatView`. Their state fields are updated by methods. Each method's `ensures` gives the new state, through a pure function of the old state where there is one, and lemmas prove the promised properties about those functions.

Shared helpers live in separate modules:

- `Text` holds ECMAScript's `trim`, `split` on one character, `String(n)` for integers below 10^21 in magnitude, and `parseInt`.
- `Profiles` holds the `UserProfile` record, `Partial<UserProfile>` and the spread `{ ...p, ...u }`.
- `Wrappers` holds `Option`, which stands in for `null`, `undefined` and `NaN`.

Things outside the program are parameters:

- the clock (`Date.now()`, `new Date()`);
- date parsing and `toLocaleDateString`;
- `JSON.stringify` / `JSON.parse`, given as a `Serializer` that may fail to parse;
- the route parameter `matchId`.

Each timer (the login delay, the discovery animation and the typing indicator) is modelled as the step that fires it.

## Model

| member | source | states |
|---|---|---|
| Text.TrimStart | src/components/ProfileEditor.tsx:25 | the result is a suffix of the input, the part cut off is all whitespace, and the result does not start with whitespace |
| Text.TrimEnd | src/components/ProfileEditor.tsx:25 | the result is a prefix of the input, the part cut off is all whitespace, and the result does not end with whitespace |
| Text.Trim | src/components/ProfileEditor.tsx:25 | `s.trim()` is empty exactly when `s` is whitespace only; otherwise it neither starts nor ends with whitespace |
| Text.TrimCutsOnlyWhitespace | src/components/ProfileEditor.tsx:25 | `s.trim()` is a contiguous slice of `s`, and everything cut off on either side is whitespace |
| Text.TrimOfTrimmed | src/components/ProfileEditor.tsx:25 | a text that neither starts nor ends with whitespace is its own trim |
| Text.TrimIdempotent | src/components/ProfileEditor.tsx:25 | trimming twice is trimming once |
| Text.NoLeadingWhitespace | src/pages/Chat.tsx:39 | a text that does not start with whitespace has nothing for `parseInt` to skip |
| Text.Split | src/pages/Profile.tsx:50 | `s.split(c)` has at least one part and no part contains `c` |
| Text.SplitJoin | src/pages/Profile.tsx:50 | joining the parts of `s.split(c)` with `c` gives `s` back |
| Text.SplitCount | src/pages/Profile.tsx:50 | `s.split(c)` has one more part than `s` has `c`s |
| Text.Join | src/pages/Profile.tsx:50 | the reference inverse of `split(c)`, against which `SplitJoin` proves `split`: it starts with the first part, followed by `c` when more parts follow |
| Text.JoinCount | src/pages/Profile.tsx:50 | a fact about the inverse of `split(c)`: joining parts free of `c` puts exactly one `c` between neighbours, one fewer than the parts |
| Text.FirstPartOfSplit | src/contexts/AuthContext.tsx:79 | the first part of `s.split(c)` is the prefix of `s` up to its first `c` (all of `s` when there is none) |
| Text.NatToDecimal | src/pages/Matches.tsx:77 | `String(n)` for `n` below 10^21 is made of decimal digits, has no leading zero, and denotes `n` |
| Text.DigitChar | src/pages/Matches.tsx:77 | the character written for a digit value is a decimal digit with that value |
| Text.IntToDecimal | src/pages/Matches.tsx:77 | `String(i)` for `i` below 10^21 in magnitude starts with a minus sign exactly when `i` is negative, and its digits are canonical and denote the magnitude of `i` |
| Text.DigitPrefix | src/pages/Chat.tsx:39 | the longest prefix made of digits of the radix: every character is a digit, and the next one is not |
| Text.ParseInt | src/pages/Chat.tsx:39 | `parseInt(s)` is a number only when some text is left after leading whitespace; a negative result comes from a leading minus; a text starting with a decimal digit, and not with `0x`, always gives a non-negative number |
| Text.ParseSigned | src/pages/Chat.tsx:39 | after the whitespace: a negative number needs a leading minus, and a leading digit without `0x` gives a non-negative number |
| Text.ParseMagnitude | src/pages/Chat.tsx:39 | after the sign: a leading digit without `0x` always gives a number, and empty text gives `NaN` |
| Text.ParseIntOfDecimal | src/pages/Chat.tsx:39 | `parseInt(String(i) + rest) == i` for any integer `i` of the model and any `rest` that does not continue the number |
| Text.ParseDigits | src/pages/Chat.tsx:39 | the digit run gives `NaN` exactly when the text does not start with a digit of the radix |
| Text.MagnitudeOfDecimal | src/pages/Chat.tsx:39 | the digits of `String(n)`, followed by a non-digit, carry no sign and no hex prefix and are read whole as `n` |
| Text.ParseNegative | src/pages/Chat.tsx:39 | a minus sign before a number is read as its negation |
| Text.ParseNonNegative | src/pages/Chat.tsx:39 | a number that starts with a digit is read as it is |
| Text.BlankAround | src/components/ProfileEditor.tsx:25 | a slice with blank text before and after it stands at its offset in the original |
| Text.DigitPrefixOfDigits | src/pages/Chat.tsx:39 | the digit prefix of a digit string followed by a non-digit is that digit string |
| Profiles.With | src/components/ProfileEditor.tsx:20-22 | `{ ...p, [field]: v }` reads `v` at `field`, and every other field, the interests and the avatar as in `p` |
| Profiles.FieldsDetermineProfile | src/contexts/AuthContext.tsx:4-23 | two profiles equal on every string field, the interests and the avatar are the same profile |
| Profiles.WithOwnValue | src/components/ProfileEditor.tsx:21 | writing a field's current value back changes nothing |
| Profiles.AsPatch | src/components/ProfileEditor.tsx:43 | a whole profile passed as a partial one supplies every field; it supplies `avatar` only when the profile has one |
| Profiles.Merge | src/contexts/AuthContext.tsx:111 | `{ ...p, ...u }` takes the interests and the avatar from `u` when `u` supplies them, from `p` otherwise |
| Profiles.MergeField | src/contexts/AuthContext.tsx:111 | each string field of `{ ...p, ...u }` is the one `u` supplies, or else the one in `p` |
| Profiles.MergeOverwritesSupplied | src/contexts/AuthContext.tsx:111 | the spread overwrites exactly the fields `u` supplies and keeps every other field of `p` |
| Profiles.MergeEmpty | src/contexts/AuthContext.tsx:111 | spreading a patch with no keys leaves the profile unchanged |
| Profiles.MergeIdempotent | src/contexts/AuthContext.tsx:111 | spreading the same patch twice equals spreading it once |
| Profiles.MergeWhole | src/contexts/AuthContext.tsx:111 | spreading a whole profile `v` gives `v`, except that the old avatar stays when `v` has none |
| Auth.GetItem | src/contexts/AuthContext.tsx:56 | `getItem` gives the stored text exactly when the key is present, and `null` otherwise |
| Auth.UpperCase | src/contexts/AuthContext.tsx:79 | lower-case ASCII letters become the matching upper-case letter, every other character is kept, and the result is never a lower-case letter |
| Auth.LocalPart | src/contexts/AuthContext.tsx:79 | `email.split('@')[0]` is the prefix of the address before its first `@`, or the whole address |
| Auth.DisplayName | src/contexts/AuthContext.tsx:79 | the derived name is as long as the local part, is empty exactly when the address is empty or starts with `@`, and is the local part with its first character upper-cased |
| Auth.NewUser | src/contexts/AuthContext.tsx:77-95 | the new profile carries the clock reading as its id, the given address, and the name derived from the address, and has no avatar |
| Auth.Restored | src/contexts/AuthContext.tsx:55-67 | after `checkAuth`, loading has ended |
| Auth.RestoredEndsLoading | src/contexts/AuthContext.tsx:54-70 | initialisation ends loading whatever storage holds |
| Auth.RestoredFromNothing | src/contexts/AuthContext.tsx:56-57 | a missing or empty stored value leaves storage untouched and nobody signed in |
| Auth.RestoredFromCorrupt | src/contexts/AuthContext.tsx:58-64 | a stored value that does not parse is removed, and the user stays null |
| Auth.RestoredFromRecord | src/contexts/AuthContext.tsx:58-60 | a stored value that parses to a profile makes it the user, and storage is kept |
| Auth.LoggedIn | src/contexts/AuthContext.tsx:72-98 | `login` always signs in, whatever the password, with the new profile; that profile is stored under the key, every other key is kept, and loading is untouched |
| Auth.LoggedOut | src/contexts/AuthContext.tsx:102-106 | after logout nobody is signed in and the key is gone from storage; every other key is kept |
| Auth.Updated | src/contexts/AuthContext.tsx:108-114 | with no user nothing changes; with a user the merged profile becomes the user and is stored under the key; every other key is kept |
| Auth.LogoutIdempotent | src/contexts/AuthContext.tsx:102-106 | logging out twice is logging out once |
| Auth.UpdateOverwritesSupplied | src/contexts/AuthContext.tsx:111-113 | with a user, the supplied fields take the supplied values and every other field is kept |
| Auth.OperationsKeepPersisted | src/contexts/AuthContext.tsx:54-114 | every operation keeps storage holding a record that parses back to the signed-in user |
| Auth.ReloadRestoresUser | src/contexts/AuthContext.tsx:56-60 | when storage is in step with the user, a fresh mount's `checkAuth` finds that user again |
| Auth.LoginSurvivesReload | src/contexts/AuthContext.tsx:97-98 | the stored record after login equals the new user: a reload restores exactly it |
| Auth.LogoutSurvivesReload | src/contexts/AuthContext.tsx:104 | after logout a reload finds nobody |
| Auth.AuthProvider.constructor | src/contexts/AuthContext.tsx:49-50 | the provider mounts with no user, loading, over the storage the browser holds |
| Auth.AuthProvider.IsAuthenticated | src/contexts/AuthContext.tsx:118 | `isAuthenticated` is true exactly when `user` is not null |
| Auth.AuthProvider.CheckAuth | src/contexts/AuthContext.tsx:55-67 | the fields reach the `Restored` state, and storage stays in step with the user |
| Auth.AuthProvider.Login | src/contexts/AuthContext.tsx:72-98 | the fields reach the `LoggedIn` state: the new user, stored under the key |
| Auth.AuthProvider.Logout | src/contexts/AuthContext.tsx:102-106 | the fields reach the `LoggedOut` state: no user, key removed |
| Auth.AuthProvider.UpdateProfile | src/contexts/AuthContext.tsx:108-114 | the fields reach the `Updated` state: nothing without a user, else the merged record, stored |
| Guard.Decide | src/components/ProtectedRoute.tsx:13-34 | the spinner shows exactly while loading; nothing shows exactly when loaded and not authenticated; the children show exactly when loaded and authenticated; the redirect to `/` happens exactly in the "nothing" case |
| Guard.GuardOverSession | src/components/ProtectedRoute.tsx:10-34 | over the session store, the guard shows the spinner without redirecting at mount, and after `checkAuth` it shows the page exactly when somebody is signed in |
| Editor.Without | src/components/ProfileEditor.tsx:37 | `filter(i => i !== x)` leaves no `x`, and every other value keeps its number of occurrences |
| Editor.Accepts | src/components/ProfileEditor.tsx:25 | an accepted input trims to a new, non-empty interest that is its own trim; a rejected one is whitespace only or already listed |
| Editor.WithInterest | src/components/ProfileEditor.tsx:24-31 | an accepted input is appended, trimmed, after the unchanged old list; a rejected one leaves the list as it was; a list without duplicates keeps none |
| Editor.WithoutConcat | src/components/ProfileEditor.tsx:37 | filtering keeps the remaining items in their order (it distributes over concatenation) |
| Editor.WithoutAbsent | src/components/ProfileEditor.tsx:37 | removing an absent value changes nothing |
| Editor.WithoutIdempotent | src/components/ProfileEditor.tsx:37 | removing the same interest twice is removing it once |
| Editor.WithoutKeepsDistinct | src/components/ProfileEditor.tsx:34-39 | a list without duplicates has none after an interest is removed |
| Editor.ProfileEditor.constructor | src/components/ProfileEditor.tsx:17-18 | the form starts as the given profile, with an empty interest box |
| Editor.ProfileEditor.HandleInputChange | src/components/ProfileEditor.tsx:20-22 | only the named field of the form changes |
| Editor.ProfileEditor.SetNewInterest | src/components/ProfileEditor.tsx:171 | typing sets the interest box and leaves the form alone |
| Editor.ProfileEditor.AddInterest | src/components/ProfileEditor.tsx:24-32 | an accepted input is appended and the box cleared; otherwise list and box are unchanged; no duplicates appear |
| Editor.ProfileEditor.HandleInterestKey | src/components/ProfileEditor.tsx:173 | Enter adds the interest; any other key changes nothing |
| Editor.ProfileEditor.RemoveInterest | src/components/ProfileEditor.tsx:34-39 | every occurrence of the interest is removed, the rest of the form and the box are kept, and no duplicates appear |
| Editor.ProfileEditor.HandleSubmit | src/components/ProfileEditor.tsx:41-44 | `onSave` receives the whole current form |
| Discovery.NextIndex | src/pages/Discover.tsx:79-84 | inside a list of `n` profiles the next index is `current + 1` taken modulo `n`, so it stays inside the list; over an empty list it is 0 |
| Discovery.Wrap | src/pages/Discover.tsx:79-84 | the remainder of `x` modulo `n`: below `n`, and `x` minus it is a whole multiple of `n` |
| Discovery.WrapSuccessor | src/pages/Discover.tsx:79-84 | stepping once from a wrapped index is stepping once and wrapping |
| Discovery.AdvancedIsModular | src/pages/Discover.tsx:79-84 | after `k` completed actions the cursor stands at `current + k` modulo `n` |
| Discovery.FullCycle | src/pages/Discover.tsx:79-84 | one action per profile brings the cursor back to where it started |
| Discovery.ProfileAt | src/pages/Discover.tsx:89 | `profiles[i]` is undefined exactly when `i` is past the end |
| Discovery.ProgressDots | src/pages/Discover.tsx:194-199 | one dot per profile, highlighted exactly up to and including the current index |
| Discovery.CountLitPrefix | src/pages/Discover.tsx:194-199 | a row of dots highlighted up to index `c` has `c + 1` lit dots, or all of them when it is shorter |
| Discovery.HighlightedDots | src/pages/Discover.tsx:194-199 | with the cursor inside the list, exactly `currentIndex + 1` dots are highlighted |
| Discovery.DiscoverPage.constructor | src/pages/Discover.tsx:68-70 | the page opens over the mock profiles at index 0, not animating, and shows the first profile |
| Discovery.DiscoverPage.HandleAction | src/pages/Discover.tsx:72-77 | a like or a pass (the same) starts the animation, and schedules its completion only when none was running; the index does not move yet |
| Discovery.DiscoverPage.CompleteAction | src/pages/Discover.tsx:78-86 | the timer callback moves the index to `NextIndex`, keeps it inside the list, and ends the animation |
| Discovery.DiscoverPage.CurrentProfile | src/pages/Discover.tsx:89-91 | "No more profiles!" shows only for an empty list; otherwise the current profile is the one under the cursor |
| Discovery.DiscoverPage.Dots | src/pages/Discover.tsx:194-199 | one dot per profile, and `currentIndex + 1` of them lit |
| Settings.Update | src/pages/Settings.tsx:34-41 | after `updateSetting(c, k, v)`, `settings[c][k] == v`; the other keys of `c` and the other categories are unchanged, and only `c` and `k` can be new keys |
| Settings.UpdateIdempotent | src/pages/Settings.tsx:34-41 | applying the same update twice equals applying it once |
| Settings.UpdatesCommute | src/pages/Settings.tsx:34-41 | updates of two different flags can be applied in either order |
| Settings.SameCategoryCommute | src/pages/Settings.tsx:37-40 | two updates of different keys in one category can be applied in either order |
| Settings.OtherCategoriesCommute | src/pages/Settings.tsx:35-41 | updates in two different categories can be applied in either order |
| Settings.UpdateTwice | src/pages/Settings.tsx:37-40 | two updates in one category act as two updates of its row |
| Settings.RowUpdatesCommute | src/pages/Settings.tsx:38-39 | two different keys of a row can be set in either order |
| Settings.InitialDefaults | src/pages/Settings.tsx:15-32 | the initial table has the ten flags of the three categories, and a flag is false exactly for `notifications.promotions` and `privacy.incognito` |
| Settings.SettingsPanel.constructor | src/pages/Settings.tsx:15-32 | the page starts with the default table |
| Settings.SettingsPanel.UpdateSetting | src/pages/Settings.tsx:34-42 | the table is replaced by its update |
| ProfilePage.Heads | src/pages/Profile.tsx:50 | there are never more initials than name parts |
| ProfilePage.Initials | src/pages/Profile.tsx:50 | the initials are the characters that start a space-separated word, in order; empty parts add nothing, so there are at most as many initials as parts |
| ProfilePage.WordStarts | src/pages/Profile.tsx:50 | the word starts contain no space, and every one is taken from the text |
| ProfilePage.WordStartsAreHeads | src/pages/Profile.tsx:50 | the first characters of the space-separated parts are the characters that begin a word, in order |
| ProfilePage.WordStartsOfWord | src/pages/Profile.tsx:50 | a word without spaces gives its first character when it starts a word, and nothing otherwise |
| ProfilePage.WordStartsBeforeSpace | src/pages/Profile.tsx:50 | the text after a space starts a new word |
| ProfilePage.InitialsOfTwoWords | src/pages/Profile.tsx:50 | a first and a last name give their two first characters, as "Alex Jordan" gives "AJ" |
| ProfilePage.Edit | src/pages/Profile.tsx:91-125 | each dialog handler replaces only its own field of the profile |
| ProfilePage.EditableDetermineProfile | src/pages/Profile.tsx:15-31 | two records equal on the editable fields and on the rest are equal |
| ProfilePage.LastEditWins | src/pages/Profile.tsx:91-125 | of two edits of the same field, the second wins |
| ProfilePage.EditsCommute | src/pages/Profile.tsx:91-125 | edits of different fields can be made in either order |
| ProfilePage.ProfileView.constructor | src/pages/Profile.tsx:14-31 | the editor starts closed, over the default profile |
| ProfilePage.ProfileView.SetEditing | src/pages/Profile.tsx:76 | opening or dismissing the dialog leaves the profile unchanged |
| ProfilePage.ProfileView.HandleEdit | src/pages/Profile.tsx:91-125 | an edit changes the profile by `Edit` and leaves the dialog open or closed as it was |
| ProfilePage.ProfileView.HandleSave | src/pages/Profile.tsx:33-36 | save closes the editor and leaves the profile unchanged |
| Matches.DiffDays | src/pages/Matches.tsx:72-73 | `diffDays` is 0 exactly for the same instant; otherwise it is the least `d` with `abs(now - date) <= d` days |
| Matches.DiffDaysSymmetric | src/pages/Matches.tsx:72-73 | a date in the future is as many days away as one equally far in the past |
| Matches.Bucket | src/pages/Matches.tsx:75-78 | `diffDays` 1 is "Today", 2 is "Yesterday", 0 and 3 to 7 are `diffDays - 1` days ago, and `NaN` or more than 7 gives the date |
| Matches.Classify | src/pages/Matches.tsx:70-78 | an unparsed date is shown as a date, and "N days ago" is only ever written for N = -1 or 2 to 6 |
| Matches.Render | src/pages/Matches.tsx:75-78 | the Today bucket reads "Today", the Yesterday bucket "Yesterday", the date bucket the locale date text, and a day count `N` reads "N days ago", whose leading N `parseInt` reads back |
| Matches.FormatMatchDate | src/pages/Matches.tsx:69-79 | an invalid date, or one more than a week away, is written as the locale date; less than a day away (but not the same instant) is "Today"; one to two days away is "Yesterday"; a day count `N` is written "N days ago", and `parseInt` reads N back |
| Matches.BucketsByElapsedTime | src/pages/Matches.tsx:75-78 | more than 0 up to 1 day ago is "Today"; more than 1 up to 2 days is "Yesterday"; more than 2 up to 7 days is "N days ago" with N from 2 to 6; more than 7 days is the calendar date |
| Matches.SameInstant | src/pages/Matches.tsx:73-77 | the same instant gives `diffDays` 0, which falls into the week branch and reads "-1 days ago" |
| Matches.MatchNoun | src/pages/Matches.tsx:91 | the noun is "match" exactly when there is one match, and "matches" otherwise |
| Matches.CountLabel | src/pages/Matches.tsx:91 | the heading starts with the number of matches, which `parseInt` reads back, and ends with the noun |
| Chat.InitialSelection | src/pages/Chat.tsx:39 | a missing or empty route parameter selects the first match (id 1); any other is `parseInt` of it |
| Chat.RouteSelectsMatch | src/pages/Chat.tsx:39 | a route parameter written from an id selects that id |
| Chat.FindMatch | src/pages/Chat.tsx:42 | `find` gives undefined exactly when no entry has the id (always for `NaN`); otherwise it gives the first entry with that id |
| Chat.FirstOfTail | src/pages/Chat.tsx:42 | past a head without the id, the first entry with the id in the rest is the first overall |
| Chat.FindOwnId | src/pages/Chat.tsx:42 | with distinct ids, looking up an entry's id finds that entry |
| Chat.MessagesFor | src/pages/Chat.tsx:43 | the selected match's messages, or the empty list when it has no entry |
| Chat.SendDisabled | src/pages/Chat.tsx:204 | the send button is disabled exactly when the text is whitespace only, which is the send guard's condition |
| Chat.SendsOnKey | src/pages/Chat.tsx:58 | a key press sends only for Enter, never with Shift held, and always for Enter without Shift |
| Chat.ChatView.constructor | src/pages/Chat.tsx:37-40 | the page starts with an empty box, no typing indicator, and the selection from the route |
| Chat.ChatView.CurrentMatch | src/pages/Chat.tsx:42 | the header shows a sidebar entry exactly when the selected id is 1 to 5, and that entry carries the selected id |
| Chat.ChatView.Messages | src/pages/Chat.tsx:43 | the selected match's conversation; only matches 1 and 2 have one, and every other selection shows none |
| Chat.ChatView.SetNewMessage | src/pages/Chat.tsx:196 | typing sets the box only |
| Chat.ChatView.HandleSendMessage | src/pages/Chat.tsx:45-55 | whitespace-only text changes nothing; otherwise the untrimmed text goes out, the box is cleared, the indicator comes on, and the selection (hence the messages) is kept |
| Chat.ChatView.TypingTimeout | src/pages/Chat.tsx:54 | the indicator's timer turns it off and changes nothing else |
| Chat.ChatView.HandleKeyPress | src/pages/Chat.tsx:57-62 | Enter without Shift sends; Shift+Enter and every other key do nothing |
| Chat.ChatView.SelectMatch | src/pages/Chat.tsx:79 | clicking a sidebar entry selects its id, and that entry becomes the current match |

## Left out

- Rendering is not modelled: JSX, class names, icons, dialogs and layout. The landing page, the header, and the login, sign-up and password-reset pages have no logic beyond that, so they are not part of this model.
- Navigation is not modelled: `navigate('/discover')` after login and `navigate('/')` after logout. The guard's redirect is modelled as a value of its decision.
- Toasts, the theme toggle, the `console.log` stubs `handleLogout` and `handleDeleteAccount` in Settings, and the `console.error` in `checkAuth` are not modelled. They have no effect on state.
- The error `useAuth` throws outside a provider is React context plumbing and is not modelled.
- Timers are not modelled as time. Each of the 1 s delay in `login`, the 300 ms discovery animation and the 2 s typing indicator is modelled as the step that fires it. Starting the wait in `login` changes no state, so `login` is one step; the animation and the typing indicator have a start step and a callback step. Concurrency between callbacks is not modelled.
- Discovery.DiscoverPage.CompleteAction: the callback reads the index captured when the action started. Because `isAnimating` blocks a second action, that is always the current index, so the model reads the field.
- Auth.Restored, Auth.LoggedIn, Auth.Updated: the model assumes `localStorage` calls never throw. In a browser, `getItem`, `setItem` and `removeItem` can throw: a `SecurityError` when storage is blocked, or a `QuotaExceededError` when it is full. A throw in `getItem` leaves `checkAuth` before loading ends. A throw in `setItem` after login or an update leaves the new user signed in while storage keeps the old record. `Auth.RestoredEndsLoading` and `Auth.OperationsKeepPersisted` hold only for storage that does not throw.
- Auth.Serializer: `JSON.stringify`/`JSON.parse` are abstract. A parse gives a profile, `null`, or an exception. JSON values of other shapes (numbers, arrays, objects missing fields) become a `UserProfile` in the source without any check; the model has no such values.
- Auth.UpperCase: `toUpperCase` is modelled for ASCII letters only; every other character is kept. JavaScript also maps non-ASCII letters, and a few map to two characters (e.g. "ß" to "SS").
- Auth.AuthProvider.Login: the id is a parameter, because `Date.now().toString()` is a clock reading.
- Matches.FormatMatchDate: `new Date(dateString)` and `toLocaleDateString()` are locale and parsing library calls. The parsed instant (or `None` for an invalid date) and the locale text are parameters, and so is the current time.
- Matches.DiffDays: the source divides in floating point before `Math.ceil`. The model's exact integer ceiling agrees for every difference below about 1.3e8 days, which covers every valid JavaScript date.
- Text.ParseInt: digit values are exact integers. JavaScript rounds numbers with more than about 15 significant digits.
- Text.NatToDecimal, Text.IntToDecimal, Text.ParseIntOfDecimal: the model's integers are unbounded and always written as plain decimal digits. JavaScript numbers are doubles: they round integers beyond 2^53, and `String(n)` switches to exponent form once the magnitude reaches 10^21 (`String(1e21)` is `"1e+21"`, which `parseInt` reads as 1). The pages only ever render the day counts -1 to 6 and the match count, so no shown text differs.
- Profiles.Patch: a key that is present with the value `undefined` overwrites the field in a spread. The model has only present-with-a-value and absent.
- Editor.ProfileEditor.HandleInputChange: the source's type lets any key take a string, including `interests` and `avatar`; the form only ever passes the string fields, and only those are modelled.
- ProfilePage.Initials: JavaScript's `n[0]` is a UTF-16 code unit, while the model takes a whole character. The two differ only for a part starting with a character outside the Basic Multilingual Plane.
- Chat.ChatView.HandleSendMessage: the message goes only to `console.log`. The model returns it; it is never added to a conversation, just as in the source.
- Chat.MessagesFor: the lookup `mockMessages[selected]` converts the number to a property name. The model indexes by the integer, which agrees for every integer `parseInt` can return.
