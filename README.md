# ARDBEATZ storefront and admin console, modelled in Dafny

ARDBEATZ is a single-page site for a music producer: a portfolio, a beat store with a
checkout dialog, a travel/lifestyle gallery, an AI chat assistant and an admin console with
a small CRM. No source file of this project contains a password check or login gate for the
console. `App.tsx` mounts neither the console, the data store's provider nor the travel page,
so those parts are modelled as components on their own. This project models the logic behind these screens:

- **`DataContext`** (`context/DataContext.tsx`): the shared store of projects, beats, packs,
  client inquiries and orders. It loads each collection from a saved value or a seed, and
  offers prepend, delete-by-id and message-status updates. It is the class
  `DataContext.DataStore`, one `seq` field per collection.
- **`CurrencyContext`** (`context/CurrencyContext.tsx`): the seven-currency rate and symbol
  tables, price conversion and the formatted price string. The number formatter is a
  parameter.
- **`PaymentModal`** (`components/PaymentModal.tsx`): the checkout dialog's
  select → confirm → success machine and its reset when it opens. It also models the delayed
  completion timer (as an explicit event), the download URL and file name, and the PayPal
  item name.
- **`AdminDashboard`** (`components/AdminDashboard.tsx`): the CRM statistics, the add-item
  dialog and the project or beat it builds, and the per-inquiry "Mark as Replied" / "Archive"
  actions.
- **`ChatBot`** (`components/ChatBot.tsx`): the transcript, the send guard, the history handed
  to the reply generator and the reply or error turn. The generator's result is an `Outcome`
  parameter.
- **`BeatStore`** (`components/BeatStore.tsx`): the page's own catalogue, the one-slot
  play/pause toggle, the buy selection, tag truncation and the checkout dialog it opens.
- **`PortfolioPage`** and **`TravelPage`** (`components/Portfolio.tsx`,
  `components/Travel.tsx`): the "All or one category" filters, their tab lists and icons.

Supporting modules:
- `Types` holds the records of `types.ts`, plus `Order` and `ClientMessage`. Their shapes
  come from how the store seeds them and how the dashboard reads them.
- `Content` holds the seed catalogue of `data/content.ts`.
- `Lists` holds an order-preserving filter and the subsequence relation.
- `Text` holds the JavaScript `\s` whitespace set, `trim`, the `/\s+/g → "_"` replacement and
  decimal `toString`.
- `Wrappers` holds `Option`.

Conventions:
- Money is `real`.
- `parseFloat` is a parameter `string -> Option<real>`, where `None` stands for `NaN`.
- `Date.now()` and the current year are `nat` parameters.
- A handler that the page offers only while a control is shown or enabled carries that
  condition as a `requires`. Examples: the confirm button is disabled while verifying; the
  status buttons are shown only under New inquiries.
- Where the source's field is named `type` or `method`, the model says `projectType` or
  `paymentMethod`.

The source's own behaviour is modelled as written, including three quirks:
- The beat store passes its selection to the checkout dialog as a `beat` prop, but the
  dialog reads only `product`. So the dialog opened from the store renders nothing
  (`BeatStore.BuyFromStoreScenario`).
- The checkout's 1.5-second timer is not cancelled when the dialog closes. A timer started in
  one session can take a later session straight to the success screen
  (`PaymentModal.StaleCompletionScenario`).
- Status updates change every inquiry that carries the id. So "only New inquiries change"
  holds only while ids are distinct (`AdminDashboard.RepeatedIdMovesRepliedInquiry`).

## Model

| member | source | states |
|---|---|---|
| DataContext.GetSavedData | context/DataContext.tsx:24-32 | a non-empty stored text that parses gives the parsed value; a missing or empty entry, a read error or a parse error gives the fallback |
| DataContext.DataStore.constructor | context/DataContext.tsx:35-73 | each of the five collections starts as its saved value or its seed (catalogue seeds, two inquiries, one order) |
| DataContext.FreshStoreSeeds | context/DataContext.tsx:40-73 | with nothing saved, the inquiries are m1 (New) and m2 (Replied) and the single order is ord-123, 29.99, M-Pesa, Verified |
| DataContext.DataStore.AddProject | context/DataContext.tsx:82-84 | the project is prepended, every earlier project follows in order, the other collections are unchanged |
| DataContext.DataStore.DeleteProject | context/DataContext.tsx:86-88 | projects become the id-filtered list, the other collections are unchanged |
| DataContext.DataStore.AddBeat | context/DataContext.tsx:90-92 | the beat is prepended to the beats, nothing else changes |
| DataContext.DataStore.DeleteBeat | context/DataContext.tsx:94-96 | beats become the id-filtered list, nothing else changes |
| DataContext.DataStore.AddMessage | context/DataContext.tsx:98-100 | the inquiry is prepended, nothing else changes; no id check |
| DataContext.DataStore.UpdateMessageStatus | context/DataContext.tsx:102-104 | inquiries become the status-mapped list, nothing else changes |
| DataContext.DataStore.AddOrder | context/DataContext.tsx:106-108 | the order is prepended, nothing else changes |
| DataContext.RemoveById | context/DataContext.tsx:86-96 | the delete filter: never longer, and an item survives exactly when it was there and does not carry the id |
| DataContext.RemoveByIdSpec | context/DataContext.tsx:86-96 | deletion removes every item with the id, keeps every other item with its multiplicity, and keeps their order |
| DataContext.RemoveAbsentId | context/DataContext.tsx:86-96 | deleting an id no item has changes nothing |
| DataContext.RemoveByIdIdempotent | context/DataContext.tsx:86-96 | deleting the same id twice is the same as once |
| DataContext.RemovePresentIdShrinks | context/DataContext.tsx:86-96 | deleting an id that some item has makes the list strictly shorter |
| DataContext.SetStatus | context/DataContext.tsx:102-104 | same length; each inquiry with the id takes the new status, every other inquiry is unchanged |
| DataContext.SetStatusAbsentId | context/DataContext.tsx:102-104 | a status update for an id nobody has is a no-op |
| DataContext.SetStatusEffect | context/DataContext.tsx:102-104 | every matching inquiry ends with the status, and no field other than the status changes |
| CurrencyContext.Rate | context/CurrencyContext.tsx:17-25 | the `RATES` table; every rate is positive |
| CurrencyContext.Symbol | context/CurrencyContext.tsx:27-35 | the `SYMBOLS` table; every symbol is non-empty |
| CurrencyContext.TablesTotal | context/CurrencyContext.tsx:17-35 | every currency code has a positive rate and a non-empty symbol |
| CurrencyContext.FormatOptions | context/CurrencyContext.tsx:47-55 | minimum and maximum fraction digits agree; 0 exactly for TZS, UGX and KES, 2 exactly for the other four |
| CurrencyContext.ConvertPrice | context/CurrencyContext.tsx:40-42 | USD is the identity, and a non-negative USD price converts to a non-negative price |
| CurrencyContext.ConvertMonotone | context/CurrencyContext.tsx:40-42 | conversion preserves the order of prices |
| CurrencyContext.FormatPrice | context/CurrencyContext.tsx:44-58 | the currency's symbol, then the formatter's output for the converted price with that currency's fraction digits |
| CurrencyContext.SymbolsDistinguish | context/CurrencyContext.tsx:27-35 | distinct currencies have distinct symbols |
| CurrencyContext.CurrencyState.constructor | context/CurrencyContext.tsx:38 | the selected currency starts as USD |
| CurrencyContext.CurrencyState.SetCurrency | context/CurrencyContext.tsx:38 | the selected currency becomes the chosen code |
| PaymentModal.DownloadUrl | components/PaymentModal.tsx:40-49 | a pack's file URL, or a beat's audio URL else its preview URL: the first truthy candidate, never empty; none exactly when no candidate is truthy |
| PaymentModal.DownloadFileName | components/PaymentModal.tsx:52 | the name is exactly three parts: the title with whitespace runs collapsed, then "_ARDBEATZ", then "_PACK.zip" for packs or ".mp3" for beats; it contains no whitespace |
| PaymentModal.ItemName | components/PaymentModal.tsx:69 | "Pack: " before a pack's title, " (License)" after a beat's title; the title is recoverable from the name |
| PaymentModal.CheckoutModal.Rendered | components/PaymentModal.tsx:35 | the dialog draws anything only while it is open and has a product |
| PaymentModal.CheckoutModal.constructor | components/PaymentModal.tsx:17-22 | no method, select step, not verifying, no timer pending |
| PaymentModal.CheckoutModal.ReceiveProps | components/PaymentModal.tsx:26-35 | new props are taken as given; the session resets only when the dialog goes from closed to open |
| PaymentModal.CheckoutModal.ChooseMethod | components/PaymentModal.tsx:106-117 | the method is chosen and the confirm step shown |
| PaymentModal.CheckoutModal.ChangeMethod | components/PaymentModal.tsx:178-245 | back to the select step, the method kept |
| PaymentModal.CheckoutModal.PaymentComplete | components/PaymentModal.tsx:60-66 | verifying starts and one completion is scheduled, only when not already verifying |
| PaymentModal.CheckoutModal.CompletionFires | components/PaymentModal.tsx:62-65 | a scheduled completion, in whatever session, ends verifying and shows success |
| PaymentModal.CheckoutModal.TriggerDownload | components/PaymentModal.tsx:37-58 | a link exactly when there is a download URL, with that URL and the computed file name |
| PaymentModal.StaleCompletionScenario | components/PaymentModal.tsx:26-66 | pay, close, reopen: the old timer reaches success with no method chosen in the new session |
| PaymentModal.HappyPathScenario | components/PaymentModal.tsx:26-66 | choose, pay and wait reach success, with a download exactly when the product has a URL |
| Text.Trim | components/ChatBot.tsx:25 | a contiguous piece of the input with only whitespace cut off before and after it, starting and ending with a non-whitespace character |
| Text.TrimEmptyIffBlank | components/ChatBot.tsx:25 | trimming leaves nothing exactly when the input is all whitespace |
| Text.CollapseWhitespace | components/PaymentModal.tsx:52 | never longer than the input, and empty only for empty input |
| Text.CollapseRemovesWhitespace | components/PaymentModal.tsx:52 | the result contains no whitespace |
| Text.CollapseRun | components/PaymentModal.tsx:52 | one maximal whitespace run between two parts becomes exactly one "_" |
| Text.CollapseKeepsWordOnly | components/PaymentModal.tsx:52 | a title without whitespace is unchanged |
| Text.CollapseIdempotent | components/PaymentModal.tsx:52 | replacing twice is the same as once |
| Text.NatToString | components/AdminDashboard.tsx:43-55 | a non-empty run of decimal digits with no leading zero |
| Text.NatToStringRoundTrip | components/AdminDashboard.tsx:43-55 | reading the digits back gives the number |
| Lists.FilterIsSubsequence | components/Portfolio.tsx:66-68 | filtering keeps the relative order of what it keeps |
| Lists.FilterAppend | components/AdminDashboard.tsx:36 | filtering distributes over concatenation |
| AdminDashboard.TotalRevenue | components/AdminDashboard.tsx:35 | the revenue of orders with non-negative amounts is non-negative |
| AdminDashboard.RevenueAppend | components/AdminDashboard.tsx:35 | revenue is additive over any split of the order list |
| AdminDashboard.RevenueOfNewOrder | components/AdminDashboard.tsx:35-37 | a prepended order adds its amount to the revenue and one to the sales count |
| AdminDashboard.TotalSales | components/AdminDashboard.tsx:37 | the number of orders, zero exactly when there are none; each recorded order adds one (RevenueOfNewOrder) |
| AdminDashboard.NewMessages | components/AdminDashboard.tsx:36 | at most the number of inquiries, and zero exactly when no inquiry is New |
| AdminDashboard.SetStatusUniqueId | components/AdminDashboard.tsx:214-222 | with distinct ids, a status action changes that inquiry's status alone |
| AdminDashboard.StatusActionLowersNewCount | components/AdminDashboard.tsx:214-222 | with distinct ids, a status action on a New inquiry lowers the New count by exactly one |
| AdminDashboard.RepeatedIdMovesRepliedInquiry | components/AdminDashboard.tsx:214-222 | with a shared id, archiving the New inquiry also archives a Replied one |
| AdminDashboard.BeatPrice | components/AdminDashboard.tsx:59 | a parsed non-zero price is kept; NaN and zero give 29.99; the price is never zero |
| AdminDashboard.ProjectFromForm | components/AdminDashboard.tsx:42-51 | the form's title and type, an id and release date that read back as the timestamp and year, the placeholder artist and biography |
| AdminDashboard.BeatFromForm | components/AdminDashboard.tsx:54-64 | the form's title, the parse-or-default price, an id that reads back as the timestamp, 140 BPM in Cm, tags New and Trap, empty URLs |
| AdminDashboard.AddedBeatHasNoDownload | components/AdminDashboard.tsx:62-63 | a beat added from the dashboard offers no download at checkout |
| AdminDashboard.Dashboard.constructor | components/AdminDashboard.tsx:25-32 | dashboard tab, dialog closed, empty title and price, type Produced |
| AdminDashboard.Dashboard.SelectTab | components/AdminDashboard.tsx:85-110 | the active tab becomes the chosen one, nothing else changes |
| AdminDashboard.Dashboard.OpenAddModal | components/AdminDashboard.tsx:292-327 | the dialog opens for the chosen kind, form fields kept |
| AdminDashboard.Dashboard.EditForm | components/AdminDashboard.tsx:373-400 | the form fields take the typed values |
| AdminDashboard.Dashboard.CloseModal | components/AdminDashboard.tsx:70-75 | closed, no kind, title and price cleared, the type selection kept |
| AdminDashboard.Dashboard.HandleAddSubmit | components/AdminDashboard.tsx:39-68 | exactly one new project or beat prepended as the dialog's kind says, nothing when it has none, then the dialog closes |
| AdminDashboard.Dashboard.StatusAction | components/AdminDashboard.tsx:214-222 | offered only under a New inquiry; the store's inquiries become the status-mapped list |
| ChatBot.ToHistory | components/ChatBot.tsx:41-44 | one entry per turn, in order, with the turn's role and its text as the only part |
| ChatBot.ToHistoryAppend | components/ChatBot.tsx:41-44 | the history of a concatenation is the concatenation of histories |
| ChatBot.SendBlockedIsTrimTest | components/ChatBot.tsx:25 | the send guard holds exactly when the trimmed input is empty or a request is loading |
| ChatBot.ReplyMessage | components/ChatBot.tsx:48-50 | a model turn carrying the reply, or the fixed error text flagged as an error exactly on failure |
| ChatBot.ChatWindow.constructor | components/ChatBot.tsx:7-12 | closed, one greeting turn, empty input, not loading |
| ChatBot.ChatWindow.SetOpen | components/ChatBot.tsx:60-84 | only the open flag changes |
| ChatBot.ChatWindow.EditInput | components/ChatBot.tsx:131 | only the input changes |
| ChatBot.ChatWindow.Send | components/ChatBot.tsx:23-46 | blocked: nothing changes; otherwise input cleared, untrimmed user turn appended, loading, and the call carries the history of the earlier transcript |
| ChatBot.ChatWindow.Settle | components/ChatBot.tsx:48-53 | the reply or error turn is appended and loading ends in both cases |
| ChatBot.ChatWindow.HandleSend | components/ChatBot.tsx:23-54 | an accepted send grows the transcript by exactly the user turn and the reply turn, and ends with the window still open and no call in flight |
| BeatStore.VisibleTags | components/BeatStore.tsx:141 | the first three tags in order, or all of them when there are at most three |
| BeatStore.Toggled | components/BeatStore.tsx:70-76 | the slot empties exactly when the beat was playing, and otherwise holds that beat |
| BeatStore.ToggleTwice | components/BeatStore.tsx:66-76 | toggling twice restores the slot exactly when nothing or that beat was playing |
| BeatStore.StoreBeatsHaveNoDownload | components/BeatStore.tsx:8-63 | none of the page's beats has a download URL |
| BeatStore.ModalProduct | components/BeatStore.tsx:166-170 | whatever beat is selected, the checkout dialog's `product` prop is empty |
| BeatStore.Store.constructor | components/BeatStore.tsx:66-68 | nothing playing, nothing selected, dialog closed |
| BeatStore.Store.TogglePlay | components/BeatStore.tsx:70-76 | the slot becomes the toggled value, nothing else changes |
| BeatStore.Store.OpenBuyModal | components/BeatStore.tsx:78-81 | the beat is selected and the dialog opened, playback untouched |
| BeatStore.Store.CloseModal | components/BeatStore.tsx:168 | the dialog closes, the selection stays |
| BeatStore.BuyFromStoreScenario | components/BeatStore.tsx:166-170 | the beat is selected and the dialog told to open, yet it renders nothing |
| PortfolioPage.OneTabPerFilter | components/Portfolio.tsx:64-82 | every selection has a tab, and no two tabs share a label |
| PortfolioPage.FilteredProjects | components/Portfolio.tsx:66-68 | All shows the list itself; a type shows exactly the projects of that type with their multiplicities, in order |
| PortfolioPage.TypeTabsPartition | components/Portfolio.tsx:66-82 | the three type tabs together show every project exactly once |
| PortfolioPage.PageProjects | components/Portfolio.tsx:6-68 | the page shows only catalogue projects |
| PortfolioPage.GetIcon | components/Portfolio.tsx:70-76 | an icon for each of the three project types (see IconsDistinguishTypes) |
| PortfolioPage.IconsDistinguishTypes | components/Portfolio.tsx:70-76 | every type has an icon, distinct types have distinct icons |
| TravelPage.CategoriesCoverEachOnce | components/Travel.tsx:8-23 | every selection has a tab, and the tabs are distinct |
| TravelPage.FilteredEntries | components/Travel.tsx:10-12 | All shows the list itself; a category shows exactly its entries with their multiplicities, in order |
| TravelPage.RefilterIsStable | components/Travel.tsx:10-12 | filtering a filtered list by the same category changes nothing |
| TravelPage.PageEntries | components/Travel.tsx:10-12 | the page shows only catalogue entries |
| TravelPage.GetCategoryIcon | components/Travel.tsx:14-21 | an icon for each of the four categories (see IconsDistinguishCategories) |
| TravelPage.IconsDistinguishCategories | components/Travel.tsx:14-21 | every category has an icon, distinct categories have distinct icons |

## Left out

- localStorage writes (context/DataContext.tsx:76-80) are browser I/O. Loading is modelled only as three cases: read failed, nothing stored, or a stored text that parsed or not.
- `JSON.parse` itself is not modelled. A stored text that parses to something other than an array of the right records, such as the text `null`, is taken as whatever the parser returned.
- `GetSavedData`: a saved value is taken to have the right shape; the source does not check it either.
- `CurrencyContext.FormatPrice`: `Intl.NumberFormat` grouping and rounding is a parameter, so only the symbol prefix and the fraction-digit choice are stated.
- `AdminDashboard.BeatPrice`: `parseFloat` is a parameter, so its results are taken as given. Parses to `Infinity` and the like are not modelled.
- The PayPal and WhatsApp links (components/PaymentModal.tsx:70-74) are string templates over `encodeURIComponent` and the site configuration. Only `ItemName` is modelled.
- DOM work is not modelled: anchor creation and click in `triggerDownload`, `scrollIntoView`, focus, and CSS.
- IEEE double rounding is not modelled: money is exact `real`. So `AdminDashboard.RevenueAppend` (regrouping a sum) and `CurrencyContext.ConvertMonotone` hold for the real-valued model; the program's floating-point `+` is not associative.
- Timers and `await` are modelled as explicit events: `CompletionFires` and `ChatWindow.Settle`. Concurrency and timing are not modelled.
- The reply generator (`services/geminiService.ts`) is not part of this model. Its answer or error is an `Outcome` parameter.
- `AdminDashboard.Dashboard.HandleAddSubmit`: the browser's `required` check on the title and price fields runs before the handler. The model accepts any field values, as the handler does.
- `AdminDashboard.ProjectFromForm`: the source calls `Date.now()` separately for the id and for the cover URL. The model uses one timestamp for both.
- The `newItemType as ProjectType` cast is unchecked in the source. The form's select offers only the three types, so the model's field is a `ProjectType`.
- The dashboard's delete buttons call the store's delete operations directly. They are modelled as `DataContext.DataStore.DeleteProject` and `DeleteBeat`, not as dashboard methods.
- The checkout dialog does not record an `Order`, and the model does not either.
- The navigation bar, the page composition in `App.tsx` and the purely presentational components are not part of this model: Hero, SocialHub, Section, Button, Wifi, Services, NavBar and App. No source file contains a login gate in front of the admin console, and `App.tsx` does not mount the console, the data store's provider or the travel page.
