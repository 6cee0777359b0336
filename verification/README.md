# Data-marketplace client: state logic in Dafny

This project models the state logic of a React "data marketplace" client and proves properties about it. In this client, users connect third-party accounts, switch data-sharing categories on and off, and see mock earnings. Only the parts that hold and change state are modelled:

- **Sequential authorization modal** (`SequentialAuthModal`, `sequential_auth.dfy`). It filters the services down to the unconnected ones. It then shows them one at a time. A confirm reports the current service to `onConnect(name, index)` and shows a success screen. A timer then moves to the next service, or calls `onClose` after the last one. The filter, the phases and the render decision are pure functions. The transitions are pure functions over a `FlowState`, and the class `SequentialAuthModal` holds the same state in fields and updates it in place. The callbacks the modal makes are recorded in a trace. The timer firing is an explicit event.
- **Data-sharing settings** (`DataSettingsProvider`, `data_settings.dfy`): a store with two flags and a one-key setter, plus the context's default no-op setter.
- **Landing-page earnings calculator** (`landing_page.dfy`): five toggles, with earnings of 215 dollars per active toggle.
- **"My Data" page** (`my_data.dfy`): the constant catalogue, selecting a service, charging its price on connect, and the enabled-settings counter. The wallet it charges is in `wallet.dfy`.
- **Style lookup of the authorization modal** (`auth_modal.dfy`).

Money on the data page is integer cents (5.99 is 599). Landing-page earnings are integer dollars: 215 × n is exact for n from 0 to 5, so `toFixed(2)` changes nothing.

Three modelling decisions follow the code:
- The pending list is recomputed on every render (attached_assets/index.tsx:33). The model recomputes it as `Pending(st)` from a service list that is fixed for the modal's lifetime, as it is for the only caller.
- There is no "mark connected" operation. The only caller of the modal just logs in `onConnect` (attached_assets/index.tsx:144-146), and the data page never writes its catalogue.
- Cancel exists only in the prompt view: the close button is rendered there and nowhere else (attached_assets/index.tsx:103-123), so a cancel cannot happen on the success screen.

## Model

| member | source | states |
|---|---|---|
| `Common.CountTrueBounds` | attached_assets/LandingPage.tsx:206 | the number of true flags is at most the number of flags; it is 0 iff no flag is set, and full iff every flag is set |
| `Common.CountTrueFlip` | attached_assets/LandingPage.tsx:204-206 | flipping one flag moves the count of true flags by exactly one: down if the flag was set, up if it was clear |
| `SequentialAuth.Unconnected` | attached_assets/index.tsx:33 | every pending entry is unconnected and comes from the input list, and the pending list is no longer than the input |
| `SequentialAuth.UnconnectedIsOrderedFilter` | attached_assets/index.tsx:33 | the pending list is exactly the services with `connected == false`, in their original relative order: its k-th entry is the k-th unconnected position, positions increase, and every unconnected position occurs |
| `SequentialAuth.NothingPendingIffAllConnected` | attached_assets/index.tsx:33 | the pending list is empty iff every service is already connected |
| `SequentialAuth.PhaseOf` | attached_assets/index.tsx:67-69 | the modal renders nothing iff `isOpen` is false or every service is connected; otherwise it is on the success screen iff `showSuccess` is set, and in the prompt view iff not |
| `SequentialAuth.AfterConnect` | attached_assets/index.tsx:48-56 | with no current service, nothing changes; otherwise exactly `onConnect(current name, cursor)` is appended, the success flag is set and a timer capturing the cursor is pending; services, cursor and `isOpen` never change |
| `SequentialAuth.AfterTimer` | attached_assets/index.tsx:57-64 | the success flag is cleared and the timer is gone; if the captured index is below n-1 the cursor becomes captured + 1 and nothing is called; otherwise `onClose` is appended, the cursor stays and the modal ends up rendering nothing |
| `SequentialAuth.AfterClose` | attached_assets/index.tsx:108-113 | `onClose` is appended and nothing else, after which the modal renders nothing; services, cursor, success flag and timer are unchanged |
| `SequentialAuth.Render` | attached_assets/index.tsx:67-123 | nothing is rendered iff the modal is closed or nothing is pending; the success screen is rendered iff the success flag is set; the prompt is titled "Connect to <name>" and its button labelled "Connect <name>" for the current pending service; the success screen is headed "Successfully Connected!" and its message says whether the timer will move on or close |
| `SequentialAuth.NothingShownWhenClosedOrEmpty` | attached_assets/index.tsx:67 | with `isOpen` false, or with every service already connected, the modal renders nothing |
| `SequentialAuth.ConnectWithoutCurrentIsNoOp` | attached_assets/index.tsx:48-49 | a confirm with the cursor outside the pending list changes nothing and calls nothing |
| `SequentialAuth.InitialIsGood` | attached_assets/index.tsx:29-30 | the mount state (cursor 0, no success screen, no timer, no calls) satisfies the flow invariant |
| `SequentialAuth.ConnectKeepsGood` | attached_assets/index.tsx:48-56 | a confirm on an open modal outside the success screen keeps the flow invariant |
| `SequentialAuth.TimerKeepsGood` | attached_assets/index.tsx:57-64 | the timer firing keeps the flow invariant |
| `SequentialAuth.CloseKeepsGood` | attached_assets/index.tsx:108-113 | the close button in the prompt view keeps the flow invariant |
| `SequentialAuth.GoodMeansBoundedAndClosedOnce` | attached_assets/index.tsx:29-64 | under the invariant, the cursor stays in [0, n-1] (or is 0 when n = 0); `onClose` occurs at most once in the trace, and when it occurs it is last and the modal is closed |
| `SequentialAuth.ConfirmReportsPendingIndex` | attached_assets/index.tsx:48-56 | a confirm in the prompt view appends exactly one `onConnect`; its name is that of the service at the cursor-th unconnected position of the original list, and its index is the cursor, i.e. the index in the filtered list; the modal then shows the success screen |
| `SequentialAuth.TimerAdvancesOrCloses` | attached_assets/index.tsx:57-64 | the timer leaves the success screen; if the cursor is below n-1, it moves up by one and nothing is called; otherwise `onClose` is called once, the cursor is unchanged and the modal is closed |
| `SequentialAuth.SuccessMessageMatchesTimer` | attached_assets/index.tsx:94-96 | the success screen says "Moving to next service..." iff the timer will advance the cursor, and "All services connected!" iff it will call `onClose` |
| `SequentialAuth.CancelClosesWithoutConnect` | attached_assets/index.tsx:108-113 | the close button appends `onClose` and nothing else; afterwards `onClose` occurs exactly once and the modal is closed |
| `SequentialAuth.ButtonsOnlyInPrompt` | attached_assets/index.tsx:69-123 | confirm and cancel are possible iff the prompt view is rendered; the timer is pending iff the success screen is rendered |
| `SequentialAuth.RunKeepsGood` | attached_assets/index.tsx:48-113 | any run of offered events keeps the flow invariant |
| `SequentialAuth.EveryRunClosesAtMostOnce` | attached_assets/index.tsx:29-123 | from mount, under any sequence of clicks and timer firings, the cursor stays within the pending list; `onClose` is called at most once; once it has been called it is the last call and no further event can happen |
| `SequentialAuth.RoundsFrom` | attached_assets/index.tsx:48-64 | from a prompt at cursor i (with the first i services confirmed), n - i rounds of confirm-then-timer confirm the rest in order, then call `onClose` and close |
| `SequentialAuth.AllRoundsConnectEachThenClose` | attached_assets/index.tsx:33-64 | for n > 0 pending services, n rounds of confirm-then-timer produce `onConnect(p[k].name, k)` for k = 0..n-1 in order, then exactly one `onClose`, and leave the modal closed |
| `SequentialAuth.SequentialAuthModal.constructor` | attached_assets/index.tsx:29-30 | the component starts in the mount state, which satisfies the invariant |
| `SequentialAuth.SequentialAuthModal.HandleConnect` | attached_assets/index.tsx:48-56 | `handleConnect` updates the fields exactly as `AfterConnect` and keeps the invariant |
| `SequentialAuth.SequentialAuthModal.FireTimer` | attached_assets/index.tsx:57-64 | the timer continuation updates the fields exactly as `AfterTimer` and keeps the invariant |
| `SequentialAuth.SequentialAuthModal.ClickClose` | attached_assets/index.tsx:108-113 | the close button updates the fields exactly as `AfterClose` and keeps the invariant |
| `DataSettings.Values` | attached_assets/MyData.tsx:199 | `Object.values` of the settings has one entry per key: location first, then browsing |
| `DataSettings.Updated` | attached_assets/DataSettingsContext.tsx:26-31 | after an update, key k holds v and the other key keeps its value |
| `DataSettings.UpdateIdempotent` | attached_assets/DataSettingsContext.tsx:26-31 | writing the same value twice equals writing it once |
| `DataSettings.UpdateLastWins` | attached_assets/DataSettingsContext.tsx:26-31 | of two writes to one key, the second wins |
| `DataSettings.UpdatesOnDistinctKeysCommute` | attached_assets/DataSettingsContext.tsx:26-31 | writes to the two different keys commute |
| `DataSettings.ContextUpdate` | attached_assets/DataSettingsContext.tsx:10-31 | with a provider (lines 26-31), the written key takes the value and the other key keeps its own; without one, the default setter (lines 10-16) leaves the settings unchanged |
| `DataSettings.ReplaySnoc` | attached_assets/DataSettingsContext.tsx:26-31 | replaying writes plus one more equals applying that one write after the replay |
| `DataSettings.ProviderLastWriteWins` | attached_assets/DataSettingsContext.tsx:26-31 | with a provider, after any sequence of writes, each flag holds the value of the last write to it, or its start value if it was never written |
| `DataSettings.NoProviderStaysOff` | attached_assets/DataSettingsContext.tsx:10-16 | without a provider, the default setter is a no-op: after any writes, both flags stay false |
| `DataSettings.DataSettingsStore.constructor` | attached_assets/DataSettingsContext.tsx:22-25 | both flags start false |
| `DataSettings.DataSettingsStore.UpdateDataSettings` | attached_assets/DataSettingsContext.tsx:26-31 | the stored record becomes `Updated(old, k, v)`: flag k equals v, the other flag is unchanged, and the key set stays {location, browsing} |
| `Landing.PerToggleIsExact` | attached_assets/LandingPage.tsx:198-199 | 1075 / 5 is exactly 215 |
| `Landing.Values` | attached_assets/LandingPage.tsx:206 | `Object.values(toggles)` has five entries, each key's flag at that key's position |
| `Landing.Flip` | attached_assets/LandingPage.tsx:202-205 | the flipped key changes value and the other four keys keep theirs |
| `Landing.ActiveCount` | attached_assets/LandingPage.tsx:206 | the active count is between 0 and 5; it is 0 iff every toggle is off and 5 iff every toggle is on |
| `Landing.InitialEarningsConsistent` | attached_assets/LandingPage.tsx:188-195 | the starting figure 1075 equals 215 × 5, the formula's value when all toggles are on |
| `Landing.FlipTwiceRestores` | attached_assets/LandingPage.tsx:202-205 | toggling the same key twice restores the original toggles |
| `Landing.FlipMovesCountByOne` | attached_assets/LandingPage.tsx:202-206 | a toggle moves the active count by exactly one |
| `Landing.EarningsStep` | attached_assets/LandingPage.tsx:198-209 | earnings lie in [0, 1075]; a toggle moves them by exactly -215 (the key was on) or +215 (it was off) |
| `Landing.LandingPage.constructor` | attached_assets/LandingPage.tsx:188-195 | all five toggles start on, earnings start at 1075, and the figure matches the toggles |
| `Landing.LandingPage.HandleToggle` | attached_assets/LandingPage.tsx:197-212 | exactly the given key is flipped; earnings become 215 × (number of active toggles), so the figure keeps matching the toggles |
| `WalletStore.Wallet.constructor` | attached_assets/MyData.tsx:173 | the wallet holds the given starting balance |
| `WalletStore.Wallet.UpdateBalance` | attached_assets/MyData.tsx:183 | the balance becomes old balance + delta, with no floor |
| `AuthModal.GetServiceStylesAsWritten` | attached_assets/AuthModal.tsx:31-33 | as written, the lookup yields something other than a table entry iff the name is an inherited `Object.prototype` member; any table entry it yields is one of the three styles |
| `AuthModal.ShowsDescription` | attached_assets/AuthModal.tsx:68-70 | the description paragraph is rendered iff a description is present and non-empty; a missing or empty description shows nothing |
| `AuthModal.ConstructorEscapesFallback` | attached_assets/AuthModal.tsx:31-33 | as written, the lookup for "constructor" returns an inherited prototype member, not any table entry (see Findings) |
| `AuthModal.GetServiceStyles` | attached_assets/AuthModal.tsx:3-33 | the intended lookup is total and returns one of the three table entries: "Netflix" gives the red entry, "Amazon Prime" the blue one, any other name the `default` entry |
| `AuthModal.LookupIsCaseSensitive` | attached_assets/AuthModal.tsx:31-33 | "netflix" gets the default entry, while "Netflix" gets the red one |
| `AuthModal.AsWrittenAgreesOffPrototype` | attached_assets/AuthModal.tsx:31-33 | for every name that is not an `Object.prototype` member, the lookup as written returns the intended table entry |
| `MyData.Catalogue` | attached_assets/MyData.tsx:35-117 | the catalogue has exactly the categories financial, shopping, location and entertainment; every entry is unconnected; an entry has a price iff it is "Credit Score", the second financial entry, priced 599 cents |
| `MyData.CatalogueEntriesListed` | attached_assets/MyData.tsx:35-117 | every entry of every category is among the catalogue's listed services |
| `MyData.CatalogueFacts` | attached_assets/MyData.tsx:35-117 | every catalogue entry is unconnected; only "Credit Score" has a price, and that price is 599 cents |
| `MyData.CatalogueStylesAsIntended` | attached_assets/MyData.tsx:104-114 | for every catalogue name, the style lookup as written gives the intended entry |
| `MyData.Charge` | attached_assets/MyData.tsx:182-184 | the amount charged is non-zero iff a service is selected and its price is present and non-zero; in that case it is the price |
| `MyData.CatalogueChargeIsCreditScoreOnly` | attached_assets/MyData.tsx:45-52 | connecting a catalogue service charges 599 cents for "Credit Score" and nothing for any other |
| `MyData.ModalDescription` | attached_assets/MyData.tsx:229 | the description passed to the modal is never empty: a non-empty description is kept, and otherwise "No description available." is used |
| `MyData.ModalService` | attached_assets/MyData.tsx:225-233 | the modal is shown iff a service is selected; its props are the selected service with only the description replaced by the defaulted one, so the name, price and connection state are the selected service's, and with the defaulted description it always renders the description paragraph (AuthModal.tsx:68-70) |
| `MyData.EnabledCount` | attached_assets/MyData.tsx:199-200 | `enabledCount` is at most `totalCount` (2); it is 0 iff both settings are off, and equals the total iff both are on |
| `MyData.MyDataPage.constructor` | attached_assets/MyData.tsx:172 | nothing is selected at first |
| `MyData.MyDataPage.HandleServiceToggle` | attached_assets/MyData.tsx:176-179 | a known category and an in-range index select exactly `categories[c].services[i]`; an out-of-range index selects nothing; an unknown category throws (reported as `ok == false`) and changes nothing; the selection always comes from the catalogue |
| `MyData.MyDataPage.HandleConnect` | attached_assets/MyData.tsx:181-187 | the balance drops by `Charge(selected)`, which is 599 cents for "Credit Score" and 0 otherwise; the selection is cleared |
| `MyData.MyDataPage.CloseModal` | attached_assets/MyData.tsx:231 | closing the modal clears the selection |

## Left out

- Rendering, styling, animation, icons and charts are left out. So are the pages with no state logic: Analytics, Earnings, DataAccessSection, WalletBalance, LearnMore, the App shell and routing, the Settings tabs, Business and Support forms, Toast and ErrorBoundary. The Settings page's location switch only calls `updateDataSettings`, which is modelled.
- Confetti is a foreign library and is not modelled. In the modal it sits inside a `try` that logs and swallows errors. On the data page it is not guarded. If it threw there, the charge would already be made but the selection would not be cleared; the model assumes it returns normally.
- Real time is not modelled. The 1500 ms `setTimeout` is the explicit `TimerFired` event. The pending `timer` field of the flow state holds the cursor index the timeout's closure captured.
- `isOpen` belongs to the modal's caller. The model keeps it in the modal's state, and `onClose` sets it to false, as the only caller does (attached_assets/index.tsx:156).
- Money is not floating point here. WalletContext is not part of this model; its `updateBalance` is taken to add the delta, in integer cents. `toFixed` formatting is left out.
- Landing-page earnings are integer dollars, not floats rounded by `toFixed(2)`. The two agree for every reachable toggle state.
- `SequentialAuth.SequentialAuthModal.HandleConnect` requires the modal to be open and off the success screen. The connect button is rendered only then, so a second timer is never scheduled while one is pending. `SequentialAuth.AfterConnect` accordingly requires no success screen.
- React StrictMode's double invocation of state updaters and batching are left out; all updates are sequential.
- The landing page's signup form, `localStorage`, page reloads, the clipboard, `Math.random` referral codes and console logging are browser I/O and are left out.
- Icons are dropped. `authFields` is kept as optional data, but no logic reads it.

## Findings

| source | as written | input that shows it | evidently intended | confidence | as-written member | corrected member |
|---|---|---|---|---|---|---|
| attached_assets/AuthModal.tsx:31-33 | `styles[serviceName] \|\| styles.default` reads the property from a plain object literal, so inherited `Object.prototype` members (all truthy) are returned instead of the fallback | service name "constructor" (also "toString", "valueOf", "__proto__", ...): the lookup yields the `Object` function, and the connect button's classes become "undefined undefined" | an own-property lookup: names not in the table get the `default` entry | not executed; high (standard property lookup semantics) | `AuthModal.ConstructorEscapesFallback` | `AuthModal.GetServiceStyles` |
