# Credit-card dashboard mock: derived figures and view state

`BankDashboardMock` is a single React component that mocks a card issuer's
mobile dashboard. This project models the part of it that computes
anything:

- **Derived figures** (module `FinancialState`, `figures.dfy`). The figures
  are computed from the account constants (credit limit, base balance,
  relief amount, minimum due before relief) and the relief flag: the current
  balance, the available credit, the minimum payment due and the
  utilisation percentage that drives the progress bar. They are defined
  over any `Account` with a positive credit limit, and `Mock` holds the component's own constants.
  Currency is exact `real`.
- **Activity feed** (module `ActivityFeed`, `feed.dfy`). The "Recent
  Activity" rows form a sequence. The synthetic "Bailout Relief" credit
  comes first, and only while relief is active. The two fixed card
  transactions follow it.
- **View state** (module `ViewState`, `view.dfy`). The three `useState`
  cells are the relief flag, the active tab and the open transaction
  detail. The component only records the detail selection; it renders no
  overlay for it. Class `Dashboard` holds them, and its handler methods
  (`ActivateRelief`, `SelectTab`, `TapActivityRow`) update them. Each
  handler is proved against the specification function `Step`. `Step` is
  defined on `View` values and guarded by `Rendered`, which says whether
  the tapped control is on screen at all. `Run` replays a sequence of taps,
  and the lemmas about it hold on every path a user can take.
  `ScreensShown` models the five conditionals that choose the screen from
  the active-tab string.

## Model

| member | source | states |
|---|---|---|
| `FinancialState.ClampAtZero` | components/BankDashboardMock.tsx:79-80 | `Math.max(0, x)`: the result is non-negative, at least `x`, and equal to `x` or 0 |
| `FinancialState.CapAtHundred` | components/BankDashboardMock.tsx:82 | `Math.min(100, x)`: the result is at most 100, at most `x`, and equal to `x` or 100 |
| `FinancialState.CurrentBalance` | components/BankDashboardMock.tsx:79 | without relief the balance is the base balance; with relief it is never negative, equals base − relief when relief ≤ base, and is 0 when relief ≥ base |
| `FinancialState.AvailableCredit` | components/BankDashboardMock.tsx:80 | never negative; balance + available credit equals the limit when the balance is within the limit; 0 when the balance reaches or exceeds it |
| `FinancialState.Usage` | components/BankDashboardMock.tsx:82 | at most 100; non-negative for a non-negative balance; within the limit, usage × limit = balance × 100; at or over the limit, exactly 100 |
| `FinancialState.UsagePct` | components/BankDashboardMock.tsx:82 | the utilisation bar lies in [0, 100] unless a negative base balance is shown without relief |
| `FinancialState.Derive` | components/BankDashboardMock.tsx:79-82 | for well-formed constants every displayed figure is non-negative and the utilisation lies in [0, 100] |
| `FinancialState.MinimumPaymentDue` | components/BankDashboardMock.tsx:81 | under relief the minimum due is 0; for a non-negative pre-relief figure it lies between 0 and that figure (`MinimumDueRule` and `MinimumDueIgnoresBalance` give the rest of the rule) |
| `FinancialState.MinimumDueRule` | components/BankDashboardMock.tsx:81 | the minimum due is 0 under relief and the pre-relief figure otherwise |
| `FinancialState.MinimumDueIgnoresBalance` | components/BankDashboardMock.tsx:81 | the minimum due does not depend on the balance, the limit or the relief amount |
| `FinancialState.UsageMonotone` | components/BankDashboardMock.tsx:82 | utilisation never decreases as the balance grows |
| `FinancialState.ReliefOnlyImproves` | components/BankDashboardMock.tsx:79-82 | activating relief never raises the balance or the utilisation and never lowers the available credit |
| `FinancialState.MockFigures` | components/BankDashboardMock.tsx:53-82 | with 22000 / 21760.87 / 21500 / 652: before relief the figures are 21760.87, 239.13, ≈98.91 %, 652; after relief they are 260.87, 21739.13, ≈1.19 %, 0 (exact arithmetic) |
| `ActivityFeed.ReliefEntry` | components/BankDashboardMock.tsx:178-183 | the relief row differs from both fixed rows, is shown positive, carries the relief amount and opens `Bailout` when tapped |
| `ActivityFeed.Feed` | components/BankDashboardMock.tsx:177-187 | 3 rows with relief and 2 without; the relief entry is in the feed iff relief is active, and then it is first; the last two rows are "LD PHO CHICAGO IL" then "HULU"; only the first row, the relief row, has a tap handler |
| `ActivityFeed.ReliefPrepends` | components/BankDashboardMock.tsx:177-187 | the feed with relief is exactly the relief entry followed by the feed without it, which is the two fixed rows |
| `ActivityFeed.ReliefEntryIsCredit` | components/BankDashboardMock.tsx:178-183 | the "Bailout Relief" row is shown positive, for the relief amount, which is positive whenever the relief amount is |
| `ActivityFeed.OnlyReliefRowOpensDetail` | components/BankDashboardMock.tsx:177-187 | a row has a tap handler iff relief is active and it is the first row, and that handler opens `Bailout` |
| `ViewState.TabId` | components/BankDashboardMock.tsx:311-364 | the identifier a nav button stores selects exactly its own tab's screen |
| `ViewState.ScreensShown` | components/BankDashboardMock.tsx:311-315 | whatever the active-tab string, at most one screen is rendered |
| `ViewState.Rendered` | components/BankDashboardMock.tsx:159-187 | nav buttons are always on screen; the relief button only on the activity screen before relief; a feed row only on the activity screen and only below 3 rows with relief, 2 without |
| `ViewState.OneScreenPerTab` | components/BankDashboardMock.tsx:311-315 | the identifier of each tab selects exactly one screen, its own; distinct tabs select distinct screens |
| `ViewState.UnknownIdShowsNothing` | components/BankDashboardMock.tsx:311-315 | an active-tab string that is none of the five identifiers renders no screen |
| `ViewState.NavBarCoversEachTabOnce` | components/BankDashboardMock.tsx:321-364 | every tab has a nav button, and no tab has two; `Rendered` relies on it to show that every nav tap is possible |
| `ViewState.Step` | components/BankDashboardMock.tsx:159-364 | the relief flag only goes false → true; the detail changes only to `Bailout`, and only while relief is active; a tap on the relief row opens `Bailout`, and a tap on any other row changes nothing; a nav tap sets the tab to its own tab and touches nothing else; activation leaves the tab and the detail alone; a row tap changes only the detail |
| `ViewState.StepKeepsConsistent` | components/BankDashboardMock.tsx:177-183 | no handler opens a detail without relief being active |
| `ViewState.RunKeepsConsistent` | components/BankDashboardMock.tsx:177-183 | "detail open ⇒ relief active" is kept by every sequence of on-screen taps |
| `ViewState.ReachableIsConsistent` | components/BankDashboardMock.tsx:63-65 | in every state reachable from the initial state, an open detail implies that relief is active |
| `ViewState.ReliefStaysActive` | components/BankDashboardMock.tsx:165 | once relief is active, it stays active after any sequence of taps |
| `ViewState.FiguresFixedAfterRelief` | components/BankDashboardMock.tsx:79-82 | once relief is active, every later state shows the same derived figures |
| `ViewState.ActivationIdempotent` | components/BankDashboardMock.tsx:159-165 | with relief active, the activation button is not rendered, and setting the flag again leaves the state unchanged |
| `ViewState.TabIsLastSelected` | components/BankDashboardMock.tsx:321-364 | the active tab after any sequence of taps is the tab of the last nav tap, or the earlier tab if there was none |
| `ViewState.Dashboard.constructor` | components/BankDashboardMock.tsx:63-65 | starts with relief off, on the activity tab, with no detail open, using the component's constants |
| `ViewState.Dashboard.ActivateRelief` | components/BankDashboardMock.tsx:165 | the new state is `Step` of the old one; relief is on and the tab and detail are unchanged |
| `ViewState.Dashboard.SelectTab` | components/BankDashboardMock.tsx:321-364 | the new state is `Step` of the old one; the tab is `t`, and relief and detail are unchanged |
| `ViewState.Dashboard.TapActivityRow` | components/BankDashboardMock.tsx:177-187 | the new state is `Step` of the old one; the detail becomes `Bailout` exactly when the tapped row is the relief row |
| `ViewState.Dashboard.Figures` | components/BankDashboardMock.tsx:79-82 | the balance and the available credit shown are never negative, the utilisation bar lies in [0, 100], and the minimum due is 0 under relief and the pre-relief figure otherwise |
| `ViewState.ActivationScenario` | components/BankDashboardMock.tsx:53-82 | a fresh dashboard shows 21760.87 and 239.13; after activation it shows 260.87 and 21739.13, a minimum due of 0 and a lower utilisation |

## Left out

- The JSX markup, the SVG icons, and the helpers `Chevron`, `ListRow` and `ActivityRow`: they only render.
- `formatMoney` and `formatOffset`: they call locale formatting and the clock. A row's date is kept as a day offset (`daysAgo`), and amounts are kept unformatted.
- IEEE-754 arithmetic of JavaScript numbers: the figures are exact reals. For example, 21760.87 − 21500 is exactly 260.87 here, which floating point need not give.
- `useMemo` around the utilisation: it is a rendering cache, so `UsagePct` is a plain function.
- `lastStatementBalance` and `dueDate`: they are display-only constants.
- The text of the placeholder screens: a placeholder is modelled by its title only.
- `app/layout.tsx`: page metadata and the HTML wrapper only.
- `activeTab` is a plain string in the component. The model stores a `Tab`, because the handlers only ever store one of the five identifiers. `UnknownIdShowsNothing` shows what another string would do.
- There is no operation to close the detail, to turn relief off, or to clear the detail when the tab changes. The component has none of them.
