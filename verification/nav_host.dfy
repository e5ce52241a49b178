/**
  The navigation host's start-up and its helper, which lets code outside the
  host ask whether the first screen is showing and request a back
  navigation.

  The view model the host talks to is reduced to the part of it the host
  uses: it owns the page stack and forwards `pop`, `getPageCount`,
  `getPageBy` and `dispose` to it. The helper's executor is a closure over
  that view model; here the view model travels beside the helper in a
  `Host` value, and the executor only records that it is attached.
*/
module NavHost {
  import opened Options
  import PM = PagesManager

  /** A request for the first screen; only its url is modelled. */
  datatype ViewRequest = ViewRequest(url: string)

  /** The view model behind one navigation host. */
  datatype ViewModel = ViewModel(pagesManager: PM.Stack)

  /** The view model's `pop` result beside the new view model. */
  datatype VmPopResult = VmPopResult(viewModel: ViewModel, popped: bool)

  /** The view model's `pop`: the page stack's guarded pop. */
  function VmPop(vm: ViewModel): (r: VmPopResult)
    ensures r.popped <==> |vm.pagesManager.pages| >= 2
    ensures r.popped ==> r.viewModel.pagesManager.pages == vm.pagesManager.pages[..|vm.pagesManager.pages| - 1]
    ensures !r.popped ==> r.viewModel == vm
    ensures r.popped == PM.PopLastPage(vm.pagesManager).popped
    ensures r.viewModel.pagesManager == PM.PopLastPage(vm.pagesManager).stack
  {
    var p := PM.PopLastPage(vm.pagesManager);
    VmPopResult(ViewModel(p.stack), p.popped)
  }

  /** The view model's `getPageCount`. */
  function VmPageCount(vm: ViewModel): (r: nat)
    ensures r == |vm.pagesManager.pages|
    ensures r == 0 <==> vm.pagesManager == PM.Empty
  {
    PM.Count(vm.pagesManager)
  }

  /** The view model's `dispose`: every page is dropped. */
  function VmDispose(vm: ViewModel): (r: ViewModel)
    ensures VmPageCount(r) == 0
  {
    ViewModel(PM.RemoveAllPages(vm.pagesManager))
  }

  /** Which of the view model's two initialisers start-up calls. */
  datatype InitCall = InitWithRequest(request: ViewRequest) | InitWithJson(json: string)

  /** `initNavHost`: the request initialiser when a request is given, the
      JSON initialiser otherwise; exactly one of them. */
  function InitNavHost(viewRequest: Option<ViewRequest>, json: string): (r: InitCall)
    ensures r.InitWithRequest? <==> viewRequest.Some?
    ensures r.InitWithRequest? ==> r.request == viewRequest.value
    ensures r.InitWithJson? ==> r.json == json
  {
    match viewRequest
    case Some(request) => InitWithRequest(request)
    case None => InitWithJson(json)
  }

  /** The view model's initialiser for `call`: either one adds exactly one
      page, `firstPage`, which it builds from the request or the JSON in a
      way this model leaves open. */
  function VmInit(vm: ViewModel, call: InitCall, firstPage: PM.Page): (r: ViewModel)
    ensures VmPageCount(r) == VmPageCount(vm) + 1
    ensures r.pagesManager.pages == vm.pagesManager.pages + [firstPage]
  {
    match call
    case InitWithRequest(_) => ViewModel(PM.Add(vm.pagesManager, firstPage).stack)
    case InitWithJson(_) => ViewModel(PM.Add(vm.pagesManager, firstPage).stack)
  }

  /** The only executor the host installs: one bound to its view model. */
  datatype Executor = ViewModelExecutor

  /** `NimbusNavHostHelper`: an executor slot, empty until configured. */
  datatype NavHostHelper = NavHostHelper(executor: Option<Executor>)

  /** A helper as constructed, before any host configured it. */
  const NewHelper: NavHostHelper := NavHostHelper(None)

  /** A navigation host: its view model and the helper handed to it. */
  datatype Host = Host(viewModel: ViewModel, helper: NavHostHelper)

  /** The helper's `pop` result beside the new host. */
  datatype HostPopResult = HostPopResult(host: Host, popped: bool)

  /** The executor's `isFirstScreen`: exactly one page is on the stack. */
  function ExecutorIsFirstScreen(e: Executor, vm: ViewModel): (r: bool)
    ensures r <==> |vm.pagesManager.pages| == 1
  {
    VmPageCount(vm) == 1
  }

  /** The executor's `pop`: the view model's `pop`. */
  function ExecutorPop(e: Executor, vm: ViewModel): (r: VmPopResult)
    ensures r.popped <==> |vm.pagesManager.pages| >= 2
    ensures r.popped ==> r.viewModel.pagesManager.pages == vm.pagesManager.pages[..|vm.pagesManager.pages| - 1]
    ensures !r.popped ==> r.viewModel == vm
  {
    VmPop(vm)
  }

  /** `configureNavHostHelper`: attaches the executor bound to the host's
      view model, replacing any executor the helper held. */
  function ConfigureNavHostHelper(h: Host): (r: Host)
    ensures r.helper.executor.Some?
    ensures r.viewModel == h.viewModel
  {
    Host(h.viewModel, NavHostHelper(Some(ViewModelExecutor)))
  }

  /** The helper's `isFirstScreen`: false without an executor. */
  function IsFirstScreen(h: Host): (r: bool)
    ensures h.helper.executor.None? ==> !r
    ensures h.helper.executor.Some? ==> (r <==> PM.Count(h.viewModel.pagesManager) == 1)
  {
    match h.helper.executor
    case None => false
    case Some(e) => ExecutorIsFirstScreen(e, h.viewModel)
  }

  /** The helper's `pop`: false and no change without an executor, the view
      model's guarded pop with one. */
  function HelperPop(h: Host): (r: HostPopResult)
    ensures h.helper.executor.None? ==> !r.popped && r.host == h
    ensures r.host.helper == h.helper
    ensures h.helper.executor.Some? ==>
              && r.popped == PM.PopLastPage(h.viewModel.pagesManager).popped
              && r.host.viewModel.pagesManager == PM.PopLastPage(h.viewModel.pagesManager).stack
  {
    match h.helper.executor
    case None => HostPopResult(h, false)
    case Some(e) =>
      var p := ExecutorPop(e, h.viewModel);
      HostPopResult(Host(p.viewModel, h.helper), p.popped)
  }

  /** On the first screen a back request through the helper is refused and
      changes nothing. */
  lemma FirstScreenRefusesPop(h: Host)
    requires IsFirstScreen(h)
    ensures !HelperPop(h).popped
    ensures HelperPop(h).host == h
  {
  }

  /** With an executor and at least one page, the helper's `pop` succeeds
      exactly when the host is not on its first screen, and then it removes
      the top page only. On an empty stack both answers are false. */
  lemma PopSucceedsIffNotFirstScreen(h: Host)
    requires h.helper.executor.Some?
    ensures PM.Count(h.viewModel.pagesManager) >= 1 ==> (HelperPop(h).popped <==> !IsFirstScreen(h))
    ensures PM.Count(h.viewModel.pagesManager) == 0 ==> !HelperPop(h).popped && !IsFirstScreen(h)
    ensures HelperPop(h).popped ==>
              HelperPop(h).host.viewModel.pagesManager.pages
                == h.viewModel.pagesManager.pages[..PM.Count(h.viewModel.pagesManager) - 1]
  {
  }

  /** The host's creation step: `initNavHost`, then `configureNavHostHelper`. */
  function Start(vm: ViewModel, helper: NavHostHelper, viewRequest: Option<ViewRequest>,
                 json: string, firstPage: PM.Page): (r: Host)
    ensures r.helper.executor.Some?
    ensures VmPageCount(r.viewModel) == VmPageCount(vm) + 1
    ensures r.viewModel.pagesManager.pages == vm.pagesManager.pages + [firstPage]
  {
    var call := InitNavHost(viewRequest, json);
    ConfigureNavHostHelper(Host(VmInit(vm, call, firstPage), helper))
  }

  /** A host started on a fresh view model shows its first screen, whichever
      initialiser ran, and refuses the first back request. */
  lemma StartedHostIsOnFirstScreen(helper: NavHostHelper, viewRequest: Option<ViewRequest>,
                                   json: string, firstPage: PM.Page)
    ensures var h := Start(ViewModel(PM.Empty), helper, viewRequest, json, firstPage);
            && IsFirstScreen(h)
            && !HelperPop(h).popped
            && h.viewModel.pagesManager.pages == [firstPage]
  {
  }

  /** `n` back requests through the helper in a row. */
  function HelperPopTimes(h: Host, n: nat): Host
    decreases n
  {
    if n == 0 then h else HelperPopTimes(HelperPop(h).host, n - 1)
  }

  /** With removal synchronous, back requests through a configured helper
      remove pages from the top and never the first one. */
  lemma {:induction false} BackRequestsKeepFirstPage(h: Host, n: nat)
    requires h.helper.executor.Some?
    requires PM.Count(h.viewModel.pagesManager) >= 1
    ensures HelperPopTimes(h, n).viewModel.pagesManager == PM.PopTimes(h.viewModel.pagesManager, n)
    ensures PM.Count(HelperPopTimes(h, n).viewModel.pagesManager) >= 1
    decreases n
  {
    if n > 0 {
      var h' := HelperPop(h).host;
      assert PM.Count(h'.viewModel.pagesManager) >= 1;
      BackRequestsKeepFirstPage(h', n - 1);
    }
  }
}
