# PerfilPro toast store, FAQ toggle and footer labels, in Dafny

PerfilPro is a one-page marketing site for corporate portrait photography. Apart
from its layout, it has three pieces of behaviour, and this project models them:

- **The toast notification store** (`createToastStore`, `generateId`). It keeps an
  active list of toasts, newest first, capped at `TOAST_LIMIT = 1`. It also keeps a
  list of listeners and tells every one of them the new state after each change.
  Toast ids come from a module-level counter and are turned into decimal strings.
- **The FAQ accordion's `toggleFAQ`.** Clicking an item opens it and closes any
  other open item. Clicking the open item closes it.
- **The footer navigation label.** `'home'` is shown as `'Início'`. Any other
  section id is shown with its first character upper-cased.

Modules (one file each):

- `Seqs` (`seqs.dfy`): JavaScript's `Array.prototype.filter` and `slice(0, n)` as
  functions, with lemmas on membership, multiplicity, order and idempotence.
- `ToastIds` (`toast_ids.dfy`): `Number.prototype.toString` for natural numbers
  (`Decimal`) and its inverse (`ParseDecimal`), proved to round-trip in both
  directions. The counter `toastCount` and `generateId` are the class `IdGenerator`.
- `ToastStore` (`toast_store.dfy`): the store as the class `Store`. Its fields are
  the closure variables `state` and `listeners`, plus `delivered`, a log of every
  `listener(state)` call. The list updates are the functions `Enqueued`,
  `WithoutId` and `WithoutListener`. The `forEach` broadcast is the loop in
  `SetState`.
- `Faq` (`faq.dfy`): `openIndex` as `OpenIndex` (`NoneOpen` stands for `null`), and
  `ToggleFaq`.
- `Footer` (`footer.dfy`): `NavLabel`.

Closures are modelled as follows:

- The `dismiss` closure that `toast` creates is `Store.Dismiss(id)`.
- `toast` returns `{id, dismiss}`; this is `Handle(id)`.
- The unsubscribe closure returned by `subscribe` is `Unsubscriber(listener)`, and
  calling it is `Store.Unsubscribe`.
- Listeners are compared by identity, as `!==` compares function references. The
  model gives each listener a `ListenerId`.
- The 4000 ms auto-dismiss is modelled as a later, ordinary call of
  `Store.Dismiss(id)`. `WithoutIdIdempotent` shows that this call changes nothing
  if the toast was already closed by hand.

`Store.Toast` and `Store.Dismiss` keep `Store.Valid()` true. `Valid()` says two
things: there are at most `TOAST_LIMIT` active toasts, and every active id is the
decimal string of a counter value already handed out. This second fact is what
makes every new id differ from the ids of the toasts already active.

## Model

| member | source | states |
|---|---|---|
| `Seqs.Filter` | src/App.jsx:49-54 | `filter` returns at most as many elements as its input, and every one of them passes the test |
| `Seqs.Take` | src/App.jsx:57 | `slice(0, n)` is the prefix of length min(n, length of the input) |
| `Seqs.FilterMembership` | src/App.jsx:49-54 | a value is in the filtered list iff it was in the input and passes the test |
| `Seqs.FilterCount` | src/App.jsx:49-54 | each accepted value keeps its multiplicity; each rejected value is removed entirely |
| `Seqs.FilterConcat` | src/App.jsx:49-54 | filtering distributes over concatenation, so survivors keep their relative order |
| `Seqs.FilterKeepsAll` | src/App.jsx:49-54 | when every element passes, the filter returns its input unchanged |
| `Seqs.FilterIdempotent` | src/App.jsx:49-54 | filtering twice by the same test equals filtering once |
| `ToastIds.Decimal` | src/App.jsx:36 | `toString` of a natural number: non-empty, digits only, no leading zero except in "0" |
| `ToastIds.ParseDecimalOfDecimal` | src/App.jsx:36 | reading an id back as a number gives the counter value it was made from |
| `ToastIds.DecimalOfParseDecimal` | src/App.jsx:36 | every canonical decimal string is the id of the number it denotes (the other direction of the round trip) |
| `ToastIds.DecimalInjective` | src/App.jsx:35-36 | two counter values give the same id iff they are equal |
| `ToastIds.IssuedBeforeIff` | src/App.jsx:35-36 | `IssuedBefore(id, c)` holds iff `id` is the id of some counter value below `c` |
| `ToastIds.NextIdFresh` | src/App.jsx:35-36 | the id for counter value `c` was not issued before `c`, and it counts as issued once the counter is past `c` |
| `ToastIds.IdGenerator.constructor` | src/App.jsx:35 | the counter starts at 0 |
| `ToastIds.IdGenerator.Next` | src/App.jsx:36 | `generateId` returns the decimal string of the current counter value, and then increments the counter |
| `ToastStore.Enqueued` | src/App.jsx:34-57 | the new toast is at index 0; the length is the old length plus one, capped at the limit; the rest is the old list with its tail (the oldest) dropped |
| `ToastStore.EnqueuedKeepsOnlyNewest` | src/App.jsx:34-57 | with the limit at 1, the active list after an enqueue holds only the new toast: the older one is evicted, and the new one is never rejected |
| `ToastStore.WithoutId` | src/App.jsx:54 | dismissal keeps exactly the entries whose id differs, each with its multiplicity; an absent id leaves the list unchanged |
| `ToastStore.WithoutIdPreservesOrder` | src/App.jsx:54 | the entries left by a dismissal keep their relative order |
| `ToastStore.WithoutIdIdempotent` | src/App.jsx:54-60 | a second dismissal of the same id (such as the timer firing after a manual close) gives the same list as one dismissal |
| `ToastStore.WithoutListener` | src/App.jsx:49 | unsubscribing removes every occurrence of the listener and keeps each other listener with its multiplicity |
| `ToastStore.WithoutListenerPreservesOrder` | src/App.jsx:49 | the listeners left after an unsubscribe keep their registration order |
| `ToastStore.SubscribeThenUnsubscribe` | src/App.jsx:47-49 | subscribing a new listener and then calling its unsubscribe restores the listener list |
| `ToastStore.Notifications` | src/App.jsx:44 | a broadcast calls each registered listener once, in registration order, with the same state |
| `ToastStore.Store.constructor` | src/App.jsx:38-40 | a new store has no toasts, no listeners and no calls made, and satisfies its invariant |
| `ToastStore.Store.SetState` | src/App.jsx:42-45 | the new state is installed, and then exactly the broadcast for the current listeners is appended to the call log |
| `ToastStore.Store.Subscribe` | src/App.jsx:47-50 | the listener is appended to the end of the list; the state and the call log are unchanged |
| `ToastStore.Store.Unsubscribe` | src/App.jsx:49 | the listener list becomes `WithoutListener` of the old list; the state and the call log are unchanged |
| `ToastStore.Store.Toast` | src/App.jsx:52-63 | takes the next id, which differs from the id of every active toast; the state becomes `Enqueued` of the old list with the new toast at index 0; every listener is called with the new state; the invariant is kept |
| `ToastStore.Store.Dismiss` | src/App.jsx:54 | the state becomes `WithoutId` of the old list; every listener is called with the new state, even when the id was absent; the invariant is kept |
| `ToastStore.Store.GetState` | src/App.jsx:65 | returns the current state |
| `ToastStore.Scenario` | src/App.jsx:52-63 | toast A, then toast B, evicts A; dismissing B empties the list, and dismissing B again keeps it empty |
| `Faq.OpenItems` | src/App.jsx:613-621 | the set of open items is exactly the items `IsOpen` holds for, the `openIndex === index` test the accordion renders by |
| `Faq.ToggleFaq` | src/App.jsx:573-575 | after a click on `index`, item `k` is open iff `k == index` and `index` was not open before |
| `Faq.AtMostOneOpen` | src/App.jsx:563-575 | in every state of `openIndex`, at most one item is open |
| `Faq.ToggleTwice` | src/App.jsx:573-575 | two clicks on the same item restore the state, unless another item was open; in that case nothing is open afterwards |
| `Faq.ClicksOpenLast` | src/App.jsx:573-575 | after a non-empty run of clicks, the open item (if any) is the last one clicked |
| `Footer.Capitalize` | src/App.jsx:798 | the result has the same length, keeps everything after the first character, and its first character is the same letter upper-cased (a non-letter is kept as it is) |
| `Footer.NavLabel` | src/App.jsx:798 | `'home'` gives `'Início'`; any other non-empty id gives a label of the same length that agrees with the id after the first character and starts with the id's first letter upper-cased |
| `Footer.NavLabelRoundTrip` | src/App.jsx:798 | for an id other than `'home'` that does not start with a capital, lower-casing the label's first character gives back the id |
| `Footer.FooterLabels` | src/App.jsx:795-798 | the five footer ids get the labels Início, Services, Process, Testimonials and Contact |

## Left out

- React rendering, hooks (`useToast`, `useState`, `useEffect`) and the `Toaster` widget: this is presentation and framework wiring.
- framer-motion animations and lucide icons: these are foreign libraries.
- `setTimeout(dismiss, 4000)`: timers and the event loop are not modelled. The auto-dismiss is a later, explicit `Store.Dismiss(id)` call.
- What a listener does when it is called: each call is recorded as a `Delivery` in the `delivered` log. A listener that calls back into the store during a broadcast (re-entrancy) is not modelled.
- The object-merge branch of `setState` (`{ ...state, ...nextState }`): no caller uses it. `Store.SetState` takes the value that the function updater returns.
- Toast props other than `title` and `description`: `toast` spreads arbitrary props into the entry, but the model carries only these two.
- `ToastIds.IdGenerator.Next`: `toastCount` is an unbounded natural number. JavaScript numbers lose integer precision above 2^53, and `toString` switches to exponent notation from 10^21; neither is modelled.
- `Footer.Capitalize`: `toUpperCase` (and the `LowerAscii` used to state it) is modelled only for the ASCII letters, so full Unicode case mapping (where one character can become two, as in 'ß') is not captured. Every footer id is lower-case ASCII.
- Scrolling, `window.scrollY`, `window.open` and `encodeURIComponent`: browser I/O and library calls.
- The simulated contact-form submit and its field bindings: UI plumbing over a timer.
- Static content arrays and Tailwind class strings: data with no behaviour.
