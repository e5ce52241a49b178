# Nimbus Compose: page stack, navigation-host helper and property dispatch

A Dafny model of three pieces of sequential logic from the Compose front-end
of the Nimbus server-driven-UI framework and its annotation processor:

- **The page back-stack** (`PagesManager`, module `PagesManager` in
  `pages_manager.dfy`). Pages are kept oldest first; `add` pushes,
  `popLastPage` removes the top page but never the last remaining one,
  `removeAllPages` clears, `getPageCount` counts and `getPageBy(url)`
  returns the earliest page whose id is the url. The stack is an immutable
  `seq<Page>` and each mutating call returns the new stack.
- **The navigation host's helper and start-up** (module `NavHost` in
  `nav_host.dfy`). `NimbusNavHostHelper` answers `isFirstScreen` and `pop`
  with `false` until `configureNavHostHelper` attaches an executor bound to
  the host's view model; then "first screen" means exactly one page and `pop`
  is the view model's `pop`, itself the stack's guarded pop. `initNavHost`
  calls the request initialiser when a request is given and the JSON
  initialiser otherwise. The view model is reduced to its page stack.
- **The processor's strategy dispatch** (`CommonProperty.write`, module
  `CommonProperty` in `common_property.dfy`). A property goes to the custom
  deserializer when one is found, otherwise to the first of the primitive,
  enum, function-type (event), list and map writers whose type predicate
  holds, otherwise to auto-deserialization. The model proves that the
  function picks the unique strategy whose condition holds while every
  earlier condition fails, and that a table-driven scan of the branches in
  order picks the same one.

`options.dfy` holds the option type standing for Kotlin's nullable values.

The view model's behaviour (its `pop`, `getPageCount`, `dispose` and
initialisers) is taken from what its unit tests require of it, since its
source is not part of this model: `pop` returns `popLastPage`'s answer,
`dispose` calls `removeAllPages`, and each initialiser adds exactly one page.

One observation the proofs make explicit: with an executor attached and an
empty stack, `isFirstScreen` and `pop` both answer `false`, so "pop
succeeds" is the negation of "first screen" only when at least one page is on
the stack (`NavHost.PopSucceedsIffNotFirstScreen`).

## Model

| member | source | states |
|---|---|---|
| PagesManager.Add | compose/src/main/java/br/zup/com/nimbus/compose/internal/PagesManager.kt:12 | `add` returns true, the stack grows by one, earlier pages are unchanged in order and the new page is on top |
| PagesManager.RemoveLastPage | compose/src/main/java/br/zup/com/nimbus/compose/internal/PagesManager.kt:27-30 | removing the last page of a non-empty stack leaves the earlier pages, which with the removed page appended give the original stack |
| PagesManager.PopLastPage | compose/src/main/java/br/zup/com/nimbus/compose/internal/PagesManager.kt:14-21 | `popLastPage` returns true exactly when at least two pages are present; then exactly the top page is removed and the count drops by one; otherwise the stack is unchanged |
| PagesManager.Count | compose/src/main/java/br/zup/com/nimbus/compose/internal/PagesManager.kt:32 | the page count is zero exactly for the empty stack, |
| PagesManager.RemoveAllPages | compose/src/main/java/br/zup/com/nimbus/compose/internal/PagesManager.kt:23-25 | `removeAllPages` leaves a stack whose page count is 0 |
| PagesManager.ClearedStack | compose/src/main/java/br/zup/com/nimbus/compose/internal/PagesManager.kt:12-33 | after `removeAllPages`, `popLastPage` refuses, `getPageBy` finds nothing for any url, and the next `add` gives a one-page stack |
| PagesManager.FirstIndexOf | compose/src/main/java/br/zup/com/nimbus/compose/internal/PagesManager.kt:33 | the scan behind `firstOrNull` returns none exactly when no page has the url as id, and otherwise the position of a page with that id before which no page has it |
| PagesManager.GetPageBy | compose/src/main/java/br/zup/com/nimbus/compose/internal/PagesManager.kt:33 | `getPageBy` returns none exactly when no page has id `url`; otherwise it returns a page with that id that sits at the earliest matching position |
| PagesManager.FirstMatchUnique | compose/src/main/java/br/zup/com/nimbus/compose/internal/PagesManager.kt:33 | the earliest matching position is unique, so `getPageBy`'s answer is determined by the stack and the url |
| PagesManager.FirstIndexOfPrefix | compose/src/main/java/br/zup/com/nimbus/compose/internal/PagesManager.kt:33 | looking up in a prefix of the stack finds the whole stack's first match when it lies in the prefix, and nothing otherwise |
| PagesManager.GetPageByAfterAdd | compose/src/main/java/br/zup/com/nimbus/compose/internal/PagesManager.kt:12-33 | after `add`, a url that was found still yields the same page; an absent url yields the new page exactly when it has that id |
| PagesManager.GetPageByAfterPop | compose/src/main/java/br/zup/com/nimbus/compose/internal/PagesManager.kt:14-33 | after a successful pop, a lookup yields what it yielded before if that page lay below the removed top, and nothing otherwise |
| PagesManager.PopUndoesAdd | compose/src/main/java/br/zup/com/nimbus/compose/internal/PagesManager.kt:12-20 | on a non-empty stack, `popLastPage` after `add` returns true and restores the original stack |
| PagesManager.PopTimesKeepsFirstPage | compose/src/main/java/br/zup/com/nimbus/compose/internal/PagesManager.kt:14-20 | any number n of pops on a non-empty stack leaves its first max(1, count - n) pages, so, with removal synchronous, the stack never becomes empty |
| NavHost.VmPop | compose/src/test/java/br/zup/com/nimbus/compose/core/ui/internal/NimbusViewModelTest.kt:299-311 | the view model's `pop` succeeds iff at least two pages are present, then leaves all pages but the top, otherwise changes nothing; its answer is `popLastPage`'s |
| NavHost.VmPageCount | compose/src/test/java/br/zup/com/nimbus/compose/core/ui/internal/NimbusViewModelTest.kt:330-344 | the view model's page count is the length of its page list, zero exactly when the stack is empty |
| NavHost.VmDispose | compose/src/test/java/br/zup/com/nimbus/compose/core/ui/internal/NimbusViewModelTest.kt:346-358 | disposing the view model empties its page stack |
| NavHost.VmInit | compose/src/test/java/br/zup/com/nimbus/compose/core/ui/internal/NimbusViewModelTest.kt:136-157 | each view-model initialiser adds exactly one page on top of the existing ones |
| NavHost.InitNavHost | compose/src/main/java/br/zup/com/nimbus/compose/internal/NimbusNavHost.kt:102-113 | `initNavHost` performs exactly one initialisation: the request one, with the given request, iff a request is present, otherwise the JSON one with the given JSON |
| NavHost.ConfigureNavHostHelper | compose/src/main/java/br/zup/com/nimbus/compose/internal/NimbusNavHost.kt:92-100 | after configuration the helper holds an executor and the view model is untouched |
| NavHost.ExecutorIsFirstScreen | compose/src/main/java/br/zup/com/nimbus/compose/internal/NimbusNavHost.kt:97 | the installed executor reports the first screen iff exactly one page is on the stack |
| NavHost.ExecutorPop | compose/src/main/java/br/zup/com/nimbus/compose/internal/NimbusNavHost.kt:98 | the installed executor's `pop` succeeds iff at least two pages are present, then removes only the top page, otherwise changes nothing |
| NavHost.IsFirstScreen | compose/src/main/java/br/zup/com/nimbus/compose/internal/NimbusNavHost.kt:121 | without an executor `isFirstScreen` is false; with the configured executor it is true iff the page count is exactly 1 |
| NavHost.HelperPop | compose/src/main/java/br/zup/com/nimbus/compose/internal/NimbusNavHost.kt:123 | without an executor `pop` returns false and changes nothing; with the configured executor it returns the view model's pop result and leaves the stack that pop leaves |
| NavHost.FirstScreenRefusesPop | compose/src/main/java/br/zup/com/nimbus/compose/internal/NimbusNavHost.kt:97-98 | when `isFirstScreen` is true, the helper's `pop` returns false and the host is unchanged |
| NavHost.PopSucceedsIffNotFirstScreen | compose/src/main/java/br/zup/com/nimbus/compose/internal/NimbusNavHost.kt:97-98 | with an executor and a non-empty stack, `pop` succeeds iff not on the first screen, removing just the top page; on an empty stack both answers are false |
| NavHost.Start | compose/src/main/java/br/zup/com/nimbus/compose/internal/NimbusNavHost.kt:48-52 | start-up (init then configure) leaves the helper attached, keeps the earlier pages in order and puts the initial page on top |
| NavHost.StartedHostIsOnFirstScreen | compose/src/main/java/br/zup/com/nimbus/compose/internal/NimbusNavHost.kt:48-52 | a host started on a fresh view model is on its first screen, holding just the initial page, and refuses a back request, whichever initialiser ran |
| NavHost.BackRequestsKeepFirstPage | compose/src/main/java/br/zup/com/nimbus/compose/internal/NimbusNavHost.kt:123 | n back requests through a configured helper act as n guarded pops, and, with removal synchronous, the stack keeps at least one page |
| CommonProperty.Write | processor/src/main/java/com/zup/nimbus/processor/codegen/function/CommonProperty.kt:13-25 | the chosen strategy's condition holds and every earlier branch's condition fails; custom iff a deserializer was found (carrying it); auto iff no deserializer and none of the five type predicates |
| CommonProperty.ChosenIsUnique | processor/src/main/java/com/zup/nimbus/processor/codegen/function/CommonProperty.kt:16-24 | at most one strategy satisfies "own condition holds, all earlier fail" |
| CommonProperty.WriteIsTheChosenStrategy | processor/src/main/java/com/zup/nimbus/processor/codegen/function/CommonProperty.kt:16-24 | `write` picks a strategy iff it is that unique first-holding one (both directions) |
| CommonProperty.DispatchInOrder | processor/src/main/java/com/zup/nimbus/processor/codegen/function/CommonProperty.kt:16-24 | scanning the branch table in priority order and stopping at the first holding condition yields the same strategy as `write` |
| CommonProperty.CustomDeserializerWins | processor/src/main/java/com/zup/nimbus/processor/codegen/function/CommonProperty.kt:14-17 | a found custom deserializer is used whatever the type predicates say |
| CommonProperty.ListBeforeMap | processor/src/main/java/com/zup/nimbus/processor/codegen/function/CommonProperty.kt:21-22 | a type that is both list-like and map-like (and not primitive, enum or function) gets the list writer |
| CommonProperty.WriteDependsOnlyOnClassification | processor/src/main/java/com/zup/nimbus/processor/codegen/function/CommonProperty.kt:13-16 | two contexts with the same deserializer lookup and type predicates get the same strategy, whatever the property name and function |

## Left out

- Asynchronous removal: `removeLastPage` launches the removal on a background coroutine, so `popLastPage` returns true before the page is gone. The model removes synchronously; the race between the removal and a following call is concurrency and not modelled.
- `removePagesAfter`: it delegates to `Page.removePagesAfter`, whose source is not part of this model.
- Page contents: a page is its id plus an uninterpreted `content` value; page states, rendering and the page's own flows are not modelled.
- The view model (`NimbusViewModel`) is not part of this model beyond the delegation its tests require; its navigation and page-state emissions, its `getPageBy` pass-through and how the initialisers build the first page (the page is a parameter of `VmInit`) are left out.
- NavHost.VmInit: states only that one page is added; the fetch or JSON parse behind it, and its loading/error states, are the view model's and not modelled.
- Executors other than the one `configureNavHostHelper` installs: the helper's executor field is public, but only the host's own executor is modelled.
- The composable `NimbusNavHost` itself (navigation-host wiring, modal state handling, back handler, remembered page): UI toolkit code.
- The strategy writers (`CustomDeserialized.write`, `PrimitiveType.write` and the rest) and the code they emit: each is a tag. The deserializer lookup and the type predicates are inputs of the model (fields of the writer context), since their sources are not part of this model.
- Modal dialog animation, `NimbusView`, `NimbusConfig` and the error-message formatting of the processor: UI, SDK configuration and reflection code outside the modelled core.
