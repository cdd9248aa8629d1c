# Site navigation, portfolio filter and contact status — a Dafny model

The site is a single-page marketing front end. Almost all of it is static
markup, animation and styling. Three pieces hold state that changes by rule,
and this project models those three and proves what they promise:

- **The navigation bar** (`navbar.dfy`, module `Navbar`). It has two
  independent flags. `scrolled` is the compact mode. It turns on above a
  scroll offset of 60, turns off below 40, and keeps its value anywhere in
  [40, 60]. `isOpen` is the mobile menu. The menu button flips it, and every
  navigation closes it. Two views are read off this state: the size of the
  call-to-action button and the highlighted link. The pure step function
  `Step` and its fold `Run` describe every history of events. The class
  `Navbar.Navbar` holds the component's fields, and each of its methods is
  proved to perform one `Step`.
- **The portfolio filter** (`portfolio.dfy`, module `Portfolio`). The
  selected category starts as `"Todos"`. The grid shows the whole project
  list for `"Todos"`. For any other category it shows the projects of that
  category, in list order. `KeepCategory` is the order-preserving filter.
  The class `Portfolio.PortfolioPage` holds the selected category.
- **The contact submission status** (`contact.dfy`, module `Contact`). The
  status is `Idle`, `Submitting` or `Success`. A submit sets `Submitting` and
  schedules a delayed callback. The callback sets `Success`. The "Enviar
  outra mensagem" button returns to `Idle`. The form is rendered only while
  the status is not `Success`, and its button is disabled while it is
  `Submitting`, so a submit reaches the handler only from `Idle`. The delay
  is a discrete `TimerFired` event. The class `Contact.ContactPage` holds the
  status and the number of pending callbacks.

Some plain facts about the source that shape the model:

- The contact page sends nothing. It waits out a simulated delay and then
  shows the confirmation.
- The category that shows every project is the literal `"Todos"`.
- The bar links to four paths: `/`, `/ecosystem`, `/about` and `/contact`.
- The first link's label is kept exactly as the source file spells it.

The portfolio page is not mounted in the route table (App.tsx:27-36). Its
logic is self-contained and is modelled as written.

## Model

| member | source | states |
|---|---|---|
| Navbar.ScrollStep | components/Layout/Navbar.tsx:20-28 | after one scroll event, an offset above 60 leaves the bar compact, one below 40 leaves it full size, and one in [40, 60] (ends included) keeps the previous mode |
| Navbar.ScrollStepIdempotent | components/Layout/Navbar.tsx:23-27 | handling the same offset twice in a row has the effect of handling it once |
| Navbar.DeadZoneIsSticky | components/Layout/Navbar.tsx:23-27 | any run of offsets inside [40, 60] leaves the mode unchanged |
| Navbar.CompactOnlyAfterExceeding | components/Layout/Navbar.tsx:23-24 | a full-size bar becomes compact only if some offset of the history was above 60 |
| Navbar.ExpandOnlyAfterDropping | components/Layout/Navbar.tsx:25-26 | a compact bar returns to full size only if some offset of the history was below 40 |
| Navbar.LastDecisiveOffsetWins | components/Layout/Navbar.tsx:19-32 | the mode after a history is decided by its last offset outside [40, 60]: compact iff that offset is above 60, whatever preceded it |
| Navbar.Initial | components/Layout/Navbar.tsx:8-9 | on mount the menu is closed and the bar is full size |
| Navbar.ScrolledFollowsScrollsOnly | components/Layout/Navbar.tsx:19-36 | over any history of events, the compact mode equals the hysteresis applied to the scroll offsets alone: menu presses and navigation never change it |
| Navbar.MenuIndependentOfScrolls | components/Layout/Navbar.tsx:19-36 | over any history of events, the menu flag and the path are what they would be with every scroll event removed |
| Navbar.MenuParity | components/Layout/Navbar.tsx:114 | n presses of the menu button flip the menu iff n is odd (from closed: open iff n is odd) and change neither the mode nor the path |
| Navbar.NavigationClosesMenu | components/Layout/Navbar.tsx:34-36 | whatever came before, a history ending in a location change or a mobile-menu link click leaves the menu closed on the new path |
| Navbar.CtaSize | components/Layout/Navbar.tsx:104 | the call-to-action button is small iff the bar is compact, normal otherwise |
| Navbar.Step | components/Layout/Navbar.tsx:19-36 | one event: compact mode moves only on a scroll event, by one hysteresis step, and a scroll touches nothing else; the menu button flips the menu and keeps the path; a location change or mobile-link click closes the menu on its target |
| Navbar.Navbar.Highlighted | components/Layout/Navbar.tsx:82-86 | a desktop link is styled as current iff its path is the current pathname, and then no other link's path is |
| Navbar.AtMostOneHighlighted | components/Layout/Navbar.tsx:12-17 | the four link paths are distinct, so two highlighted links are the same link |
| Navbar.HighlightOnOwnPath | components/Layout/Navbar.tsx:82-86 | on the path of link i, link j is highlighted iff j is i |
| Navbar.Navbar.constructor | components/Layout/Navbar.tsx:8-10 | a new bar has both flags false and reads the router's path |
| Navbar.Navbar.OnScroll | components/Layout/Navbar.tsx:20-28 | the handler performs one hysteresis step on `scrolled` and leaves the menu and the path alone |
| Navbar.Navbar.ToggleMenu | components/Layout/Navbar.tsx:114 | the menu button inverts `isOpen` and leaves `scrolled` alone |
| Navbar.Navbar.OnLocationChange | components/Layout/Navbar.tsx:34-36 | any new location closes the menu, whatever its previous state, and leaves `scrolled` alone |
| Navbar.Navbar.OnMobileLinkClick | components/Layout/Navbar.tsx:146-148 | a click on a mobile-menu link or the mobile call-to-action closes the menu and lands on the link's path |
| Navbar.Navbar.CurrentCtaSize | components/Layout/Navbar.tsx:102-104 | the bar's current call-to-action size is small iff it is compact |
| Navbar.ScrollScenario | components/Layout/Navbar.tsx:22-27 | the offsets 0, 70, 50, 35, 45, 65 give the modes full, compact, compact, full, full, compact |
| Navbar.MenuScenario | components/Layout/Navbar.tsx:139-148 | on "/", opening the menu and clicking its "/contact" link lands on "/contact" with the menu closed |
| Portfolio.KeepCategory | pages/Portfolio.tsx:20 | every project the array filter returns is of the given category, and the result is never longer than its input |
| Portfolio.KeepCategoryMembers | pages/Portfolio.tsx:20 | a project is returned iff it is in the list and of the given category |
| Portfolio.FilteredProjects | pages/Portfolio.tsx:20 | for "Todos" the grid is the whole list, same order and length; otherwise a project is shown iff it is in the list and of the selected category |
| Portfolio.KeepCategoryIsSubsequence | pages/Portfolio.tsx:20 | the filter's result is a subsequence of the list: relative order is kept |
| Portfolio.FilteredIsSubsequence | pages/Portfolio.tsx:20 | whatever the selected category, the grid shows a subsequence of the project list |
| Portfolio.KeepCategoryCounts | pages/Portfolio.tsx:20 | every project of the category is kept as many times as it occurs, and no other project is kept |
| Portfolio.KeepCategoryIdempotent | pages/Portfolio.tsx:20 | filtering the result again by the same category changes nothing |
| Portfolio.EveryCategoryHasProjects | pages/Portfolio.tsx:9-18 | on the fixed data, every category button shows at least one project |
| Portfolio.IaProjects | pages/Portfolio.tsx:11-20 | on the fixed data, the "IA" button shows projects 1 and 5, in that order |
| Portfolio.AllCategoryMatchesNoProject | pages/Portfolio.tsx:9-20 | no project has category "Todos", so the array filter by "Todos" would be empty; the page's special case shows the whole list |
| Portfolio.SelectedButtonIsUnique | pages/Portfolio.tsx:35-39 | the button categories are distinct, so the selected category styles exactly its own button |
| Portfolio.PortfolioPage.IsSelected | pages/Portfolio.tsx:36-39 | a category button is styled as selected iff its category is the selected one, and then no other button is |
| Portfolio.ClickSelectsOnlyThatButton | pages/Portfolio.tsx:32-39 | after clicking the button at index i, exactly that one of the five buttons is styled as selected |
| Portfolio.PortfolioPage.constructor | pages/Portfolio.tsx:7 | the selected category starts as "Todos" and the grid shows every project |
| Portfolio.PortfolioPage.SelectCategory | pages/Portfolio.tsx:35 | a category button click selects that category, styles as selected exactly the buttons of that category, and the grid becomes its filtered list |
| Portfolio.PortfolioPage.Visible | pages/Portfolio.tsx:20 | the grid is the whole list under "Todos", otherwise exactly the projects of the selected category |
| Portfolio.FilterScenario | pages/Portfolio.tsx:32-35 | from "Todos", choosing "IA" shows projects 1 and 5; choosing "Todos" again shows all six |
| Contact.SubmitLabel | pages/Contact.tsx:116-117 | the submit button reads "Enviando..." iff the status is submitting, and "Enviar Mensagem" otherwise |
| Contact.ShowsConfirmation | pages/Contact.tsx:64-81 | the confirmation panel is shown iff the status is success, and in that status the submit button is not marked disabled |
| Contact.ShowsForm | pages/Contact.tsx:82-83 | the form is shown iff the status is idle or submitting, never together with the confirmation |
| Contact.SubmitDisabled | pages/Contact.tsx:116 | the submit button is disabled iff the status is submitting, a status in which the form is shown |
| Contact.Step | pages/Contact.tsx:9-16 | one event: a submit is taken only from idle and schedules one callback; a firing callback sets success; "send another" is taken only from success and returns to idle; an event not taken changes nothing |
| Contact.FormOrConfirmation | pages/Contact.tsx:64-83 | the confirmation is shown iff the status is success, the form iff it is not; exactly one of them is shown |
| Contact.SubmitReachableOnlyWhenIdle | pages/Contact.tsx:116 | a submit can reach the handler (form rendered, button enabled) iff the status is idle |
| Contact.StepKeepsConsistent | pages/Contact.tsx:9-16 | every event keeps "a callback is pending exactly while submitting, never more than one" |
| Contact.RunKeepsConsistent | pages/Contact.tsx:9-16 | from a consistent state, every history of events stays consistent |
| Contact.StepOnStatus | pages/Contact.tsx:9-76 | submit moves idle to submitting, the callback moves submitting to success, "send another" moves success to idle; any other event leaves the status alone |
| Contact.NoSubmitWhileSubmitting | pages/Contact.tsx:116 | a submit while submitting is not accepted and changes nothing |
| Contact.FullCycle | pages/Contact.tsx:9-76 | submit, callback, "send another" bring an idle page back to its starting state |
| Contact.ContactPage.constructor | pages/Contact.tsx:7 | the status starts idle with no callback scheduled |
| Contact.ContactPage.Submit | pages/Contact.tsx:9-16 | a submit is accepted iff the status is idle; then the status is submitting and one callback is scheduled |
| Contact.ContactPage.OnTimer | pages/Contact.tsx:13-15 | the delayed callback finds the status submitting and sets it to success |
| Contact.ContactPage.SendAnotherMessage | pages/Contact.tsx:75-76 | "Enviar outra mensagem" is accepted iff the status is success, and returns it to idle |
| Contact.ContactScenario | pages/Contact.tsx:64-117 | one submission shows the labels "Enviar Mensagem", "Enviando..." (disabled, a second submit refused), then the confirmation, then the form again |

## Left out

- Navbar.ScrollStep: scroll offsets are whole pixels. The browser's `window.scrollY` can be fractional; an offset such as 60.5 is not modelled.
- Navbar.Navbar.OnScroll: the handler reads the `scrolled` value captured at the last render, and the listener is re-subscribed after each change (components/Layout/Navbar.tsx:30-32). Several scroll events delivered before a re-render are modelled as if each saw the latest value.
- Subscribing and unsubscribing the scroll listener is browser and framework plumbing. Scroll events are method calls carrying an offset.
- The animated style records of the bar (components/Layout/Navbar.tsx:41-64), the menu icon, the overlay's enter and exit animation, and the link labels' styling are presentation only.
- Contact.ContactPage.OnTimer: the 1500 ms delay is a discrete event. The callback is never cancelled on unmount, so a callback that fires after the page has gone is not modelled.
- The contact form's fields are uncontrolled inputs with the browser's `required` check. The page holds no field state and no validation logic, so none is modelled.
- The reveal-on-scroll sections, the capsule button's class-string assembly, the route table, the scroll-to-top helper, the footer and the static pages (home, about, ecosystem, blog) hold no state of their own and are not part of this model.
