# SaaS template client state, modelled in Dafny

This project models the client-side rules of a Next.js SaaS starter template: the API-key management page, the project dashboard, the billing page, the AI chat page, the registration, settings and new-project forms, and the API cost chart's data. Each page component that keeps React state becomes a `class`. Its state variables become fields, and its handlers become methods that update those fields.

Everything outside the page is handled in one of two ways:

- **Answers from outside** become method parameters ("oracles"). These are the identity provider's and row store's replies, the payment processor's checkout result, `Math.random()` renderings, the clock, `prompt()` answers and `FileReader` results.
- **Effects** are appended to log fields. These are routes pushed, alerts shown, and requests sent (sign-ups, checkouts, password changes, profile updates).

The chat page's persisted rows are a ghost field `rows`.

The pure logic behind the handlers is written as functions, and the properties are proved about those functions. That logic covers masking, id assignment, filtering, renaming, cloning, validation chains, button labels, thread saving, history ordering and chart data.

JavaScript's semantics are modelled where the code depends on them:

- The empty string is falsy.
- `trim` strips the ECMAScript whitespace set.
- `substring` clamps and swaps its arguments.
- `'*'.repeat(n)` throws `RangeError` for negative `n`.
- `Date.now().toString()` is a decimal rendering.

Modules:

- `JsValues` (`js_values.dfy`): `Option`, thrown values, truthiness, trimming, substrings and decimal strings.
- `ApiKeys` (`api_keys.dfy`): the API usage page's key table, masking, generation and deletion.
- `Dashboard` (`dashboard.dfy`): the project list, rename, delete, clone and navigation.
- `Billing` (`billing.dfy`): tier buttons, the checkout flow and cancellation.
- `Chat` (`chat.dfy`): messages, persisting messages and threads, history loading, and image drop.
- `Register` (`register.dfy`): the registration form.
- `Settings` (`settings.dfy`): the password change and profile update.
- `NewProject` (`new_project.dfy`): the deploy form.
- `CostChart` (`cost_chart.dfy`): the monthly cost data.

How the API-key manager behaves:

- The mask `slice(0, 4) + '*'.repeat(len - 4)` throws a `RangeError` for tokens shorter than 4 characters, and shows a 4-character token unmasked.
- Key ids are `apiKeys.length + 1`. After a deletion they can collide, and one delete then removes two keys.
- Keys belong to the page's list, not to a user: listing and deletion see every key.
- Key names are taken as entered; an empty name is accepted.
- `expiresAt` is only displayed; nothing compares it with the current date.

## Model

| member | source | states |
|---|---|---|
| JsValues.OrAbsent | app/chat-interface/page.tsx:107 | `x \|\| null` keeps a value exactly when it is truthy (non-empty), and then keeps it unchanged |
| JsValues.Trim | app/new-project/page.tsx:33 | removes exactly the leading and trailing whitespace: what is cut from either end is whitespace, and what is kept neither starts nor ends with whitespace |
| JsValues.TrimEmptyIff | app/chat-interface/page.tsx:72 | trimming gives the empty string exactly when the input is empty or all whitespace |
| JsValues.Substring | app/api-usage/page.tsx:45 | in range `substring(start, end)` is the slice `s[start..end]`; reversed bounds are swapped, an end past the string stops at its end, a negative start starts at 0; never longer than the string or than `end - start` |
| JsValues.DecimalString | app/dashboard/page.tsx:39 | `n.toString()` is a string of decimal digits with no leading zero (except for 0 itself) |
| JsValues.DecimalRoundTrip | app/dashboard/page.tsx:39 | reading the decimal rendering back gives the number |
| JsValues.DecimalStringInjective | app/dashboard/page.tsx:39 | different timestamps render to different ids |
| ApiKeys.Mask | app/api-usage/page.tsx:218 | throws `RangeError` exactly when the token is shorter than 4; otherwise same length, same first 4 characters, `*` everywhere after |
| ApiKeys.MaskOfFour | app/api-usage/page.tsx:218 | a token of exactly 4 characters is displayed unmasked |
| ApiKeys.MaskRevealsOnlyPrefixAndLength | app/api-usage/page.tsx:218 | two tokens with the same length and first 4 characters have the same masked display |
| ApiKeys.TokenColumn | app/api-usage/page.tsx:215-218 | the table renders exactly when every token has at least 4 characters, one masked cell per key in order |
| ApiKeys.TokenPart | app/api-usage/page.tsx:45 | `substring(2, 15)` of a base-36 rendering has at most 13 characters, and is characters 2..15 when the rendering is long enough |
| ApiKeys.NewToken | app/api-usage/page.tsx:45 | a generated token is two such parts and has at most 26 characters |
| ApiKeys.ShortTokenBreaksTable | app/api-usage/page.tsx:45 | renderings "0.i" and "0" give a 1-character token, after which the key table throws instead of rendering |
| ApiKeys.DeleteKeys | app/api-usage/page.tsx:56-58 | keeps exactly the keys whose id differs, and drops as many keys as carry the id |
| ApiKeys.DeleteKeysAppend | app/api-usage/page.tsx:57 | filtering distributes over concatenation |
| ApiKeys.DeleteAbsentId | app/api-usage/page.tsx:57 | deleting an id no key carries leaves the list unchanged |
| ApiKeys.DeleteKeysIdempotent | app/api-usage/page.tsx:57 | deleting the same id twice is the same as deleting it once |
| ApiKeys.CountAppend | app/api-usage/page.tsx:57 | the number of keys with an id adds up over concatenation |
| ApiKeys.IdsCollideAfterDelete | app/api-usage/page.tsx:43 | after deleting another key, the next key reuses the newest key's id, and deleting that id removes both |
| ApiKeys.InitialKeysCollide | app/api-usage/page.tsx:25-28 | from the initial two keys, deleting key 1 and generating a key gives two keys with id 2 |
| ApiKeys.ApiKeyPage.constructor | app/api-usage/page.tsx:31-36 | initial state: the two sample keys, empty form, closed dialog, no new key shown |
| ApiKeys.ApiKeyPage.ShownToken | app/api-usage/page.tsx:120 | the dialog shows the new key only when it is a non-empty string |
| ApiKeys.ApiKeyPage.SetNewKeyName | app/api-usage/page.tsx:143-148 | typing a name sets only the name |
| ApiKeys.ApiKeyPage.SetNewKeyExpiration | app/api-usage/page.tsx:154-161 | choosing a date sets only the date; the input is disabled while "No Expiration" is checked |
| ApiKeys.ApiKeyPage.SetNoExpiration | app/api-usage/page.tsx:167-172 | checking "No Expiration" also clears the date; unchecking keeps it |
| ApiKeys.ApiKeyPage.GenerateApiKey | app/api-usage/page.tsx:38-54 | without a date and without "No Expiration" it throws the missing-expiry error and changes nothing; otherwise it appends a key with id `length + 1`, the form's name, the new token, today's date, and "Never" or the date, then resets the form and returns the token |
| ApiKeys.ApiKeyPage.ClickGenerate | app/api-usage/page.tsx:180-186 | the same check raises the alert instead and changes nothing else; otherwise it appends exactly the key `GenerateApiKey` builds (id `length + 1`, name, token, today, "Never" or the date), resets the form, and that key's token becomes the shown key |
| ApiKeys.ApiKeyPage.ClickClose | app/api-usage/page.tsx:192-195 | Close hides the dialog and forgets the shown key, nothing else |
| ApiKeys.ApiKeyPage.OnOpenChange | app/api-usage/page.tsx:105 | opening or dismissing the dialog sets only its open flag |
| ApiKeys.ApiKeyPage.DeleteApiKey | app/api-usage/page.tsx:56-58 | the key list becomes `DeleteKeys` of the old list, nothing else changes |
| Dashboard.Renamed | app/dashboard/page.tsx:30-32 | same length and ids; exactly the projects with the id get the new name |
| Dashboard.WithoutId | app/dashboard/page.tsx:34-36 | keeps exactly the projects whose id differs |
| Dashboard.Cloned | app/dashboard/page.tsx:38-41 | the old list followed by a copy with the timestamp's decimal id and the name plus " (Copy)" |
| Dashboard.ProjectRoute | app/dashboard/page.tsx:43-45 | the route is the chat route with `projectId=` followed by the id |
| Dashboard.WithoutIdAppend | app/dashboard/page.tsx:35 | filtering distributes over concatenation |
| Dashboard.WithoutAbsentId | app/dashboard/page.tsx:35 | deleting an absent id changes nothing |
| Dashboard.DeleteIdempotent | app/dashboard/page.tsx:35 | deleting twice is deleting once |
| Dashboard.RenamePreservesIds | app/dashboard/page.tsx:31 | renaming keeps the id set and id uniqueness; a second rename of the same id overrides the first |
| Dashboard.WithoutIdPreservesUnique | app/dashboard/page.tsx:35 | deleting keeps ids unique |
| Dashboard.ClonePreservesUnique | app/dashboard/page.tsx:39 | a clone whose timestamp id is not yet used keeps ids unique |
| Dashboard.InitialCloneFresh | app/dashboard/page.tsx:23-27 | the sample ids "1" to "3" are unique and cloning at any time after 3 ms keeps them unique |
| Dashboard.DashboardPage.constructor | app/dashboard/page.tsx:23-27 | starts with the three sample projects and no navigation |
| Dashboard.DashboardPage.HandleRename | app/dashboard/page.tsx:30-32 | the list becomes `Renamed` of the old list |
| Dashboard.DashboardPage.RenameFromPrompt | app/dashboard/page.tsx:69-74 | a cancelled or empty prompt answer renames nothing; otherwise the project is renamed to the answer |
| Dashboard.DashboardPage.HandleDelete | app/dashboard/page.tsx:34-36 | the list becomes `WithoutId` of the old list |
| Dashboard.DashboardPage.HandleClone | app/dashboard/page.tsx:38-41 | the list becomes `Cloned` of the old list at the given time |
| Dashboard.DashboardPage.HandleProjectClick | app/dashboard/page.tsx:43-45 | exactly one navigation to the project's chat route |
| Billing.ButtonLabel | app/billing/page.tsx:199-201 | "Current Tier" exactly when the button is disabled; "Cancel Subscription" on Free while subscribed; otherwise "Select <name> Plan" |
| Billing.ClickAction | app/billing/page.tsx:197 | a tier with a price id subscribes with that tier and price; one without it cancels |
| Billing.TierActions | app/billing/page.tsx:126-154 | Free cancels, Basic and Pro subscribe with their own price ids |
| Billing.AtMostOneDisabled | app/billing/page.tsx:196 | at most one tier button is disabled, and none while there is no current tier |
| Billing.CheckoutThrown | app/billing/page.tsx:51-90 | a checkout throws unless it redirects; a rejected call or failed redirect throws its own value; an unparseable body gives "Invalid server response: " with its first 100 characters and "..."; a failed status gives the server's message, or "HTTP error! status: N" without one; a missing library gives "Failed to load Stripe" |
| Billing.UnparseableMessageQuotesPrefix | app/billing/page.tsx:66-72 | the unparseable-response message quotes a prefix of the body of at most 100 characters, the whole body when it is that short |
| Billing.BillingPage.constructor | app/billing/page.tsx:15-18 | no tier, user, error or success; no requests |
| Billing.BillingPage.LoadSubscription | app/billing/page.tsx:20-39 | a signed-in user sets the user id, and their active subscription, if any, sets the tier |
| Billing.BillingPage.HandleSubscription | app/billing/page.tsx:41-94 | without a user id: the not-authenticated error and no request; otherwise one checkout request, the messages cleared, and the error set to the prefixed thrown message unless the checkout redirected |
| Billing.BillingPage.HandleCancelSubscription | app/billing/page.tsx:96-124 | without user id or tier: the nothing-to-cancel error; an active row is cancelled, the tier cleared and success reported; a throw reports the failure; no active row changes nothing |
| Billing.BillingPage.ClickTier | app/billing/page.tsx:193-202 | an enabled button runs the handler its action names, with that handler's outcome: for Basic and Pro the not-authenticated error, or one checkout request with the tier's price id and the prefixed thrown message unless redirected; for Free the nothing-to-cancel error, the cancellation with success, the failure message, or no change |
| Chat.InsertedRows | app/chat-interface/page.tsx:100-108 | an insert adds a row exactly when it succeeds, and at most one |
| Chat.SavedRows | app/chat-interface/page.tsx:140-157 | a thread saves at most one row per message |
| Chat.SavedRowsComeFromThread | app/chat-interface/page.tsx:143-149 | every saved row carries the user, the project and one of the thread's messages |
| Chat.SavedRowsAllInserted | app/chat-interface/page.tsx:140-154 | when every insert succeeds, every message is saved, in order |
| Chat.SavedRowsAppend | app/chat-interface/page.tsx:140-154 | failed inserts do not stop the loop, so saving a concatenation is saving each part |
| Chat.FourRowsPerSend | app/chat-interface/page.tsx:71-90 | when every insert succeeds, one send persists four rows: the user message and reply from `addMessage`, then again from `saveThread` |
| Chat.BlankInputCannotSend | app/chat-interface/page.tsx:72 | whitespace-only input without an image sends nothing |
| Chat.Matching | app/chat-interface/page.tsx:54 | exactly the rows of the user and the project |
| Chat.InsertByCreation | app/chat-interface/page.tsx:55 | insertion keeps the rows as a multiset and adds the new one |
| Chat.InsertKeepsOrder | app/chat-interface/page.tsx:55 | inserting into a creation-ordered list keeps it ordered |
| Chat.SortByCreation | app/chat-interface/page.tsx:55 | sorting yields an ascending permutation |
| Chat.HistoryQuery | app/chat-interface/page.tsx:51-55 | the history is the matching rows, in ascending creation time |
| Chat.HistoryMessages | app/chat-interface/page.tsx:58-63 | one message per row, carrying its id, role, text and (non-empty) image |
| Chat.LoadedHistoryIsTheUsersProjectRows | app/chat-interface/page.tsx:51-63 | every loaded row belongs to the user and the project, and none is lost |
| Chat.ChatPage.constructor | app/chat-interface/page.tsx:23-27 | no messages or input, no image, title "AI Chat", no project |
| Chat.ChatPage.AddMessage | app/chat-interface/page.tsx:92-131 | appends the message; with a project and a user it inserts one row, gives the message the row's id on success (`AssignedId`), and reports a throw |
| Chat.ChatPage.SaveThread | app/chat-interface/page.tsx:133-158 | the stored rows grow by exactly `SavedRows` of the thread when there is a project and a user, otherwise not at all |
| Chat.ChatPage.HandleSend | app/chat-interface/page.tsx:71-90 | blank input without an image changes nothing; otherwise the trimmed user message (with its row id when stored) is appended; a throwing first insert stops there; else the input and image are cleared and the fixed reply is appended (with its row id when stored); the stored rows are the user insert, then, unless the reply insert throws, the reply insert and `SavedRows` of the thread |
| Chat.ChatPage.LoadProjectAndChat | app/chat-interface/page.tsx:32-69 | with a user and a project parameter: the project id is set, the name replaced when found, and the messages replaced by the history when it answers |
| Chat.ChatPage.HandleDrop | app/chat-interface/page.tsx:170-176 | the first dropped file becomes the pending image only when its type starts with "image/" and it is read |
| Chat.ChatPage.HandleImageUpload | app/chat-interface/page.tsx:160-168 | a file read as a string becomes the pending image, with no type check |
| Register.ValidationError | app/register/page.tsx:25-33 | "Please fill in all fields" exactly when a field is empty; the mismatch error exactly when all are filled and the passwords differ |
| Register.SubmitError | app/register/page.tsx:21-62 | the page goes to the login page exactly when validation passes, sign-up returns a user id and the subscription is created; otherwise it shows the validation error, the sign-up error's message, the subscription-setup message when the user id is missing or the subscription fails, or "Registration failed" when a call throws |
| Register.RegisterPage.constructor | app/register/page.tsx:13-18 | all fields and the error empty, nothing sent |
| Register.RegisterPage.HandleSubmit | app/register/page.tsx:21-62 | the error and the navigation follow `SubmitError`; sign-up is sent only after validation, the subscription only for a returned user id |
| Settings.PasswordCheck | app/settings/page.tsx:85-94 | the mismatch error exactly when the new passwords differ; the fill error exactly when they agree but the current or new one is empty |
| Settings.SettingsPage.constructor | app/settings/page.tsx:16-25 | no user, empty fields, language "en", no messages |
| Settings.SettingsPage.HandleChangePassword | app/settings/page.tsx:85-113 | a failed check sets its error and sends nothing; otherwise the new password is sent once; acceptance reports success and clears the three fields; a refusal or throw sets its error and keeps them |
| Settings.SettingsPage.HandleUpdateProfile | app/settings/page.tsx:58-83 | without a user nothing changes; otherwise the metadata is sent, then the language only if that succeeded; success only when both succeed, else "Failed to update profile: " and the first failure's message |
| NewProject.DeployError | app/new-project/page.tsx:32-40 | the name error exactly when the name is blank after trimming; the framework error exactly when the name is not blank and no framework is chosen |
| NewProject.NewProjectPage.constructor | app/new-project/page.tsx:28-30 | empty name, framework and error |
| NewProject.NewProjectPage.HandleDeploy | app/new-project/page.tsx:32-45 | the error follows `DeployError`; exactly when it passes, the error is cleared and the page goes to the chat |
| CostChart.MonthlyCost | components/ApiCostChart.tsx:18 | a billed month costs between 100 and 599 |
| CostChart.GenerateCurrentYearData | components/ApiCostChart.tsx:6-20 | twelve entries named Jan..Dec in order; months after the current one cost 0, the others 100..599 |
| CostChart.BilledMonthsSoFar | components/ApiCostChart.tsx:16-19 | exactly the months from January to the current one carry a cost |

## Left out

- Rendering, styling, layout and the pages not listed above are not part of this model: the landing, login and forgot-password pages, the auth wrapper, the checkout API route and the `lib/` helpers.
- The identity provider, the row store, the payment processor, `fetch`, `FileReader`, `prompt`, `alert`, the clipboard and the router are outside code. Their answers are method parameters, and their effects are log fields.
- `Math.random()` and the clock are inputs. A random draw is a parameter: the base-36 rendering for tokens, and a real in [0, 1) for the chart. The date is a string, and `Date.now()` is a `nat`.
- CostChart.GenerateCurrentYearData: the data is computed once at module load. The model takes the month and the draws as inputs. It uses exact real arithmetic rather than IEEE doubles. The 0 and 100..599 bounds hold for both, but on some draws the product rounds up to an integer, so a month's cost can differ from the program's by one.
- ApiKeys.ApiKeyPage.GenerateApiKey: the expiry date is stored as the raw input string, and its format is not checked (the page does not check it either). The "Expires" column displays it as is.
- The API usage summary figures are fixed display constants, with no logic.
- The copy-to-clipboard button is not modelled.
- The settings page's initial load of the user, email, metadata and language is not modelled. HandleUpdateProfile takes the loaded user as it stands in the `user` field.
- Chat.ChatPage.AddMessage: the page sets `newMessage.id` on an object already placed in the message list. The model writes the id into the last list entry, which is that same message only while no other message was appended in between. The model runs one handler at a time and does not interleave concurrent sends.
- Chat.ChatPage.HandleSend: the user lookup is one parameter shared by all inserts of a send. The page calls `getCurrentUser()` for each insert, so a user signing out mid-send is not modelled.
- Chat.HistoryMessages: stored roles are assumed to be 'user' or 'ai', the only values the page writes.
- Chat.HistoryQuery: rows with the same `created_at` keep their table order. The store does not promise an order for ties.
- The scroll-to-bottom timeout, drag-over handling and console logging have no effect on state and are not modelled.
- Mask and CheckoutThrown: strings are sequences of Unicode code points, while JavaScript's `length`, `slice`, `substring` and `repeat` count UTF-16 code units. The two agree on the ASCII tokens and messages the pages produce; a token or response body with characters outside the Basic Multilingual Plane would be measured differently.
- Billing.CheckoutThrown: a `RangeError` is listed for completeness and is reported by its name. Its message is engine-specific, and it does not arise on this path.
- Settings.SettingsPage.HandleUpdateProfile: a thrown value that is not an `Error` would show "undefined" as its message. The model treats every failure as carrying a message.
