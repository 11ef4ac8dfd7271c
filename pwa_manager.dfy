/**
 * The page-side install and update coordinator. It keeps the browser's deferred
 * install prompt, shows or hides the install and update buttons, tracks whether the
 * page is online, shows transient notifications, posts messages to service workers,
 * and turns the launch URL's `action` parameter into a `pwa-action` event.
 *
 * The observable state is the record `Ui`; `Next` is what each browser event or button
 * click does to it, and the class `PWAManager` performs the same steps on its fields.
 * Notifications, posted messages and dispatched actions are logs that only grow.
 */
module PwaManager {
  import opened Wrappers

  /** The `type` argument of `showNotification`, which becomes the CSS class `status--<type>`. */
  datatype NoticeKind = Success | Info | Error

  datatype Notice = Notice(message: string, kind: NoticeKind)

  /** The `detail.action` of a `pwa-action` event. */
  datatype PwaAction = NewDocument | ExportDocument

  /** The `state` of a service worker, as its `statechange` event reports it. */
  datatype WorkerState = Parsed | Installing | Installed | Activating | Activated | Redundant

  /** What became of `deferredPrompt.prompt()` and its `userChoice`: the user accepted,
      the user dismissed, or one of the two threw. */
  datatype PromptChoice = Accepted | Dismissed | PromptThrows

  /** The saved `beforeinstallprompt` event. */
  datatype InstallPrompt = InstallPrompt(id: nat)

  /** A service worker the page can post to. */
  datatype WorkerId = WorkerId(id: nat)

  /** `worker.postMessage({ type: msgType })` */
  datatype Post = Post(target: WorkerId, msgType: string)

  datatype Ui = Ui(
    deferredPrompt: Option<InstallPrompt>,
    isOnline: bool,
    /** `swRegistration` is set. */
    registered: bool,
    installShown: bool,
    updateShown: bool,
    /** The network indicator, when the page has a header to hold it: whether it reads online. */
    indicator: Option<bool>,
    notices: seq<Notice>,
    posts: seq<Post>,
    dispatched: seq<PwaAction>)

  /** What reaches the manager: browser events, the two button clicks, and the
      settling of the registration promise (with the registration's active worker). */
  datatype Event =
    | BeforeInstallPrompt(prompt: InstallPrompt)
    | AppInstalled
    | Online
    | Offline
    | StateChange(state: WorkerState, hasController: bool)
    | InstallClicked(choice: PromptChoice)
    | UpdateClicked(waiting: Option<WorkerId>)
    | Registered(active: Option<WorkerId>)

  // The notification texts.
  const InstalledMessage: string := "App installed successfully!"
  const OnlineMessage: string := "Back online!"
  const OfflineMessage: string := "You are offline. The app will continue to work!"
  const NoPromptMessage: string := "Install prompt not available"
  const InstallFailedMessage: string := "Installation failed"
  const InstallingMessage: string := "Installing app..."
  const CancelledMessage: string := "Installation cancelled"
  const UpdatingMessage: string := "Updating app..."

  /** `handleUrlActions`: the action named by the `action` query parameter, if any. */
  function UrlAction(action: Option<string>): Option<PwaAction>
  {
    if action == Some("new") then Some(NewDocument)
    else if action == Some("export") then Some(ExportDocument)
    else None
  }

  /** The state once the constructor has run: no prompt, no registration yet, both
      buttons hidden, the indicator (if any) showing the platform's online flag, and
      the launch action, if any, dispatched. */
  function Initial(online: bool, hasHeader: bool, action: Option<string>): Ui
  {
    var a := UrlAction(action);
    Ui(None, online, false, false, false, if hasHeader then Some(online) else None, [], [],
       if a.Some? then [a.value] else [])
  }

  /** `updateNetworkStatus`: an existing indicator is redrawn from `isOnline`. */
  function Redraw(indicator: Option<bool>, online: bool): Option<bool>
  {
    if indicator.Some? then Some(online) else None
  }

  function Next(u: Ui, e: Event): Ui
  {
    match e
    case BeforeInstallPrompt(p) =>
      u.(deferredPrompt := Some(p), installShown := true)
    case AppInstalled =>
      u.(installShown := false, notices := u.notices + [Notice(InstalledMessage, Success)])
    case Online =>
      u.(isOnline := true, indicator := Redraw(u.indicator, true),
         notices := u.notices + [Notice(OnlineMessage, Success)])
    case Offline =>
      u.(isOnline := false, indicator := Redraw(u.indicator, false),
         notices := u.notices + [Notice(OfflineMessage, Info)])
    case StateChange(state, hasController) =>
      if state == Installed && hasController then u.(updateShown := true) else u
    case InstallClicked(choice) =>
      if u.deferredPrompt.None? then
        u.(notices := u.notices + [Notice(NoPromptMessage, Error)])
      else if choice == PromptThrows then
        u.(notices := u.notices + [Notice(InstallFailedMessage, Error)])
      else
        var message := if choice == Accepted then InstallingMessage else CancelledMessage;
        u.(notices := u.notices + [Notice(message, Info)], deferredPrompt := None, installShown := false)
    case UpdateClicked(waiting) =>
      if u.registered && waiting.Some? then
        u.(posts := u.posts + [Post(waiting.value, "SKIP_WAITING")],
           notices := u.notices + [Notice(UpdatingMessage, Info)],
           updateShown := false)
      else u
    case Registered(active) =>
      if active.Some? then u.(registered := true, posts := u.posts + [Post(active.value, "CLIENT_READY")])
      else u.(registered := true)
  }

  function Run(u: Ui, es: seq<Event>): Ui
    decreases |es|
  {
    if es == [] then u else Run(Next(u, es[0]), es[1..])
  }

  // ---------------------------------------------------------------------------
  // One event at a time

  lemma UrlActionIff(action: Option<string>)
    ensures UrlAction(action) == Some(NewDocument) <==> action == Some("new")
    ensures UrlAction(action) == Some(ExportDocument) <==> action == Some("export")
    ensures UrlAction(action) == None <==> action != Some("new") && action != Some("export")
  {
  }

  lemma InitialState(online: bool, hasHeader: bool, action: Option<string>)
    ensures var u := Initial(online, hasHeader, action);
            && u.deferredPrompt == None && u.isOnline == online
            && !u.installShown && !u.updateShown && !u.registered
            && u.notices == [] && u.posts == []
            && (u.dispatched == [] <==> UrlAction(action) == None)
            && (action == Some("new") ==> u.dispatched == [NewDocument])
            && (action == Some("export") ==> u.dispatched == [ExportDocument])
  {
  }

  /** A `beforeinstallprompt` stores the prompt and shows the install button. */
  lemma PromptStoredAndShown(u: Ui, p: InstallPrompt)
    ensures Next(u, BeforeInstallPrompt(p)).deferredPrompt == Some(p)
    ensures Next(u, BeforeInstallPrompt(p)).installShown
    ensures Next(u, BeforeInstallPrompt(p)) == u.(deferredPrompt := Some(p), installShown := true)
  {
  }

  /** Installing without a stored prompt only reports the error. */
  lemma InstallWithoutPrompt(u: Ui, choice: PromptChoice)
    requires u.deferredPrompt.None?
    ensures Next(u, InstallClicked(choice)) == u.(notices := u.notices + [Notice(NoPromptMessage, Error)])
  {
  }

  /** Once the user has answered the prompt, either way, the prompt is spent and the
      install button hidden; one informational notice says which answer it was. */
  lemma PromptAnswered(u: Ui, choice: PromptChoice)
    requires u.deferredPrompt.Some? && choice != PromptThrows
    ensures var v := Next(u, InstallClicked(choice));
            && v.deferredPrompt == None && !v.installShown
            && |v.notices| == |u.notices| + 1 && v.notices[..|u.notices|] == u.notices
            && v.notices[|u.notices|].kind == Info
            && (v.notices[|u.notices|].message == InstallingMessage <==> choice == Accepted)
  {
  }

  /** A prompt that throws is kept, with the install button as it was, and an error is shown. */
  lemma PromptThrowKeepsPrompt(u: Ui)
    requires u.deferredPrompt.Some?
    ensures Next(u, InstallClicked(PromptThrows)) == u.(notices := u.notices + [Notice(InstallFailedMessage, Error)])
  {
  }

  /** The update button appears exactly when a worker reaches `installed` while a
      controller exists; nothing else about the state changes. */
  lemma UpdateShownOnlyWhenReady(u: Ui, state: WorkerState, hasController: bool)
    ensures var v := Next(u, StateChange(state, hasController));
            && (v.updateShown <==> u.updateShown || (state == Installed && hasController))
            && v == u.(updateShown := v.updateShown)
  {
  }

  /** An update click does something exactly when the page is registered and a worker
      is waiting; then it posts one SKIP_WAITING message to that worker, shows
      "Updating app..." and hides the update button, and changes nothing else. */
  lemma UpdateClickPosts(u: Ui, waiting: Option<WorkerId>)
    ensures var v := Next(u, UpdateClicked(waiting));
            && (v != u <==> u.registered && waiting.Some?)
            && (u.registered && waiting.Some? ==>
                  v.posts == u.posts + [Post(waiting.value, "SKIP_WAITING")] && !v.updateShown)
            && (u.registered && waiting.Some? ==>
                  v == u.(posts := u.posts + [Post(waiting.value, "SKIP_WAITING")],
                          notices := u.notices + [Notice(UpdatingMessage, Info)],
                          updateShown := false))
  {
    var v := Next(u, UpdateClicked(waiting));
    if u.registered && waiting.Some? {
      assert |v.posts| != |u.posts|;
    }
  }

  /** Going online or offline sets the flag, redraws the indicator and adds one notice,
      "Back online!" or the offline message, and changes nothing else. */
  lemma NetworkTransitions(u: Ui)
    ensures var v := Next(u, Online);
            v.isOnline && |v.notices| == |u.notices| + 1 && v.notices[..|u.notices|] == u.notices
            && (v.indicator.Some? <==> u.indicator.Some?)
    ensures var v := Next(u, Offline);
            !v.isOnline && |v.notices| == |u.notices| + 1 && v.notices[..|u.notices|] == u.notices
            && (v.indicator.Some? <==> u.indicator.Some?)
    ensures Next(u, Online) == u.(isOnline := true, indicator := Redraw(u.indicator, true),
                                  notices := u.notices + [Notice(OnlineMessage, Success)])
    ensures Next(u, Offline) == u.(isOnline := false, indicator := Redraw(u.indicator, false),
                                   notices := u.notices + [Notice(OfflineMessage, Info)])
  {
  }

  // ---------------------------------------------------------------------------
  // Whole traces

  /** What every reachable state satisfies: the indicator agrees with `isOnline`, the
      install button is only shown while a prompt is stored, and the page has posted
      nothing but CLIENT_READY and SKIP_WAITING. */
  ghost predicate Consistent(u: Ui)
  {
    && (u.indicator.Some? ==> u.indicator.value == u.isOnline)
    && (u.installShown ==> u.deferredPrompt.Some?)
    && (forall i :: 0 <= i < |u.posts| ==> u.posts[i].msgType in {"CLIENT_READY", "SKIP_WAITING"})
  }

  lemma InitialConsistent(online: bool, hasHeader: bool, action: Option<string>)
    ensures Consistent(Initial(online, hasHeader, action))
  {
  }

  lemma NextConsistent(u: Ui, e: Event)
    requires Consistent(u)
    ensures Consistent(Next(u, e))
  {
  }

  lemma {:induction false} RunConsistent(u: Ui, es: seq<Event>)
    requires Consistent(u)
    ensures Consistent(Run(u, es))
    decreases |es|
  {
    if es != [] {
      NextConsistent(u, es[0]);
      RunConsistent(Next(u, es[0]), es[1..]);
    }
  }

  lemma NextKeepsNotices(u: Ui, e: Event)
    ensures u.notices <= Next(u, e).notices && |Next(u, e).notices| <= |u.notices| + 1
  {
  }

  lemma NextKeepsPosts(u: Ui, e: Event)
    ensures u.posts <= Next(u, e).posts
  {
  }

  /** One event adds at most one notification and takes nothing back. */
  lemma NextOnlyAppends(u: Ui, e: Event)
    ensures var v := Next(u, e);
            && u.notices <= v.notices && |v.notices| <= |u.notices| + 1
            && u.posts <= v.posts && v.dispatched == u.dispatched
  {
    NextKeepsNotices(u, e);
    NextKeepsPosts(u, e);
  }

  /** Notifications, posts and dispatched actions are never taken back, and each event
      shows at most one notification. */
  lemma {:induction false} RunOnlyAppends(u: Ui, es: seq<Event>)
    ensures var v := Run(u, es);
            && u.notices <= v.notices && |v.notices| <= |u.notices| + |es|
            && u.posts <= v.posts && v.dispatched == u.dispatched
    decreases |es|
  {
    if es != [] {
      NextOnlyAppends(u, es[0]);
      RunOnlyAppends(Next(u, es[0]), es[1..]);
    }
  }

  /** A stored prompt comes from a `beforeinstallprompt`: it was stored before the trace
      or arrived during it. */
  lemma {:induction false} PromptComesFromEvent(u: Ui, es: seq<Event>, p: InstallPrompt)
    requires Run(u, es).deferredPrompt == Some(p)
    ensures u.deferredPrompt == Some(p) || BeforeInstallPrompt(p) in es
    decreases |es|
  {
    if es != [] {
      var w := Next(u, es[0]);
      PromptComesFromEvent(w, es[1..], p);
      if BeforeInstallPrompt(p) in es[1..] {
        var k :| 0 <= k < |es[1..]| && es[1..][k] == BeforeInstallPrompt(p);
        assert es[k + 1] == BeforeInstallPrompt(p);
      } else if es[0] == BeforeInstallPrompt(p) {
        assert es[0] in es;
      }
    }
  }

  /** From a reachable state, a click on a visible install button never meets the
      missing-prompt error. */
  lemma VisibleInstallButtonHasPrompt(online: bool, hasHeader: bool, action: Option<string>, es: seq<Event>, choice: PromptChoice)
    requires Run(Initial(online, hasHeader, action), es).installShown
    ensures var u := Run(Initial(online, hasHeader, action), es);
            Next(u, InstallClicked(choice)).notices != u.notices + [Notice(NoPromptMessage, Error)]
  {
    InitialConsistent(online, hasHeader, action);
    RunConsistent(Initial(online, hasHeader, action), es);
    var u := Run(Initial(online, hasHeader, action), es);
    var v := Next(u, InstallClicked(choice));
    assert v.notices[|u.notices|] != Notice(NoPromptMessage, Error);
  }

  // ---------------------------------------------------------------------------
  // The manager

  class PWAManager {
    var deferredPrompt: Option<InstallPrompt>
    var isOnline: bool
    var registered: bool
    var installShown: bool
    var updateShown: bool
    var indicator: Option<bool>
    var notices: seq<Notice>
    var posts: seq<Post>
    var dispatched: seq<PwaAction>

    function Snapshot(): Ui
      reads this
    {
      Ui(deferredPrompt, isOnline, registered, installShown, updateShown, indicator, notices, posts, dispatched)
    }

    /** `online` is `navigator.onLine`, `hasHeader` whether the page has a header to hold
        the network indicator, `standalone` whether the app already runs installed, and
        `action` the launch URL's `action` parameter. */
    constructor (online: bool, hasHeader: bool, standalone: bool, action: Option<string>)
      ensures Snapshot() == Initial(online, hasHeader, action)
    {
      deferredPrompt, isOnline, registered := None, online, false;
      // createInstallUI: both buttons start hidden; the indicator is built when there is a header
      installShown, updateShown := false, false;
      indicator := if hasHeader then Some(online) else None;
      notices, posts := [], [];
      // setupInstallPrompt: a standalone app hides the (already hidden) install button
      if standalone {
        installShown := false;
      }
      // handleUrlActions
      var a := UrlAction(action);
      dispatched := if a.Some? then [a.value] else [];
    }

    method ShowNotification(message: string, kind: NoticeKind)
      modifies this`notices
      ensures notices == old(notices) + [Notice(message, kind)]
    {
      notices := notices + [Notice(message, kind)];
    }

    method UpdateNetworkStatus()
      modifies this`indicator
      ensures indicator == Redraw(old(indicator), isOnline)
    {
      if indicator.Some? {
        indicator := Some(isOnline);
      }
    }

    method OnBeforeInstallPrompt(p: InstallPrompt)
      modifies this
      ensures Snapshot() == Next(old(Snapshot()), BeforeInstallPrompt(p))
    {
      deferredPrompt := Some(p);
      installShown := true;
    }

    method OnAppInstalled()
      modifies this
      ensures Snapshot() == Next(old(Snapshot()), AppInstalled)
    {
      installShown := false;
      ShowNotification(InstalledMessage, Success);
    }

    method OnOnline()
      modifies this
      ensures Snapshot() == Next(old(Snapshot()), Online)
    {
      isOnline := true;
      UpdateNetworkStatus();
      ShowNotification(OnlineMessage, Success);
    }

    method OnOffline()
      modifies this
      ensures Snapshot() == Next(old(Snapshot()), Offline)
    {
      isOnline := false;
      UpdateNetworkStatus();
      ShowNotification(OfflineMessage, Info);
    }

    /** The `statechange` listener put on a newly found worker. */
    method OnStateChange(state: WorkerState, hasController: bool)
      modifies this
      ensures Snapshot() == Next(old(Snapshot()), StateChange(state, hasController))
    {
      if state == Installed && hasController {
        updateShown := true;
      }
    }

    /** `installApp`, with the prompt's outcome supplied by the user. */
    method InstallApp(choice: PromptChoice)
      modifies this
      ensures Snapshot() == Next(old(Snapshot()), InstallClicked(choice))
    {
      if deferredPrompt.None? {
        ShowNotification(NoPromptMessage, Error);
        return;
      }
      if choice == PromptThrows {
        ShowNotification(InstallFailedMessage, Error);
        return;
      }
      if choice == Accepted {
        ShowNotification(InstallingMessage, Info);
      } else {
        ShowNotification(CancelledMessage, Info);
      }
      deferredPrompt := None;
      installShown := false;
    }

    /** `updateApp`, with `registration.waiting` as the platform reports it. */
    method UpdateApp(waiting: Option<WorkerId>)
      modifies this
      ensures Snapshot() == Next(old(Snapshot()), UpdateClicked(waiting))
    {
      if registered && waiting.Some? {
        posts := posts + [Post(waiting.value, "SKIP_WAITING")];
        ShowNotification(UpdatingMessage, Info);
        updateShown := false;
      }
    }

    /** The registration promise settles: the registration is kept and its active
        worker, if any, is told the page is ready. */
    method OnRegistered(active: Option<WorkerId>)
      modifies this
      ensures Snapshot() == Next(old(Snapshot()), Registered(active))
    {
      registered := true;
      if active.Some? {
        posts := posts + [Post(active.value, "CLIENT_READY")];
      }
    }
  }
}
