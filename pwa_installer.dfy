/** index.tsx: `PWAInstaller`, the install prompt. The browser's `beforeinstallprompt`
    event is kept; once the service worker is active, the event is held, the app is not
    already standalone, the browser is online and the user has not dismissed the prompt,
    a 3.5-second timer shows it. Whenever one of the watched flags changes and the
    conditions fail, the prompt is hidden at once.

    The visibility effect re-runs exactly when `swReady`, `deferredPrompt`,
    `isStandalone` or `userDismissed` changes: each handler below ends by running it in
    that case, with `navigator.onLine` as the input `online`. A deferred prompt is
    identified by a number, so a second captured event counts as a change. The 3.5-second
    timer is the flag `timerArmed`; `TimerFired` is its callback. */
module PwaInstaller {
  import opened Wrappers

  const PromptDelayMs: nat := 3500
  const Activated: string := "activated"

  /** `isReadyForPrompt`. */
  predicate ReadyForPrompt(swReady: bool, deferredPrompt: Option<nat>, isStandalone: bool, online: bool, userDismissed: bool) {
    swReady && deferredPrompt.Some? && !isStandalone && online && !userDismissed
  }

  /** The dependencies of the visibility effect. */
  datatype Watched = Watched(swReady: bool, deferredPrompt: Option<nat>, isStandalone: bool, userDismissed: bool)

  class Installer {
    var deferredPrompt: Option<nat>
    var swReady: bool
    var isStandalone: bool
    var isVisible: bool
    var userDismissed: bool
    var timerArmed: bool
    var listening: bool   // a `statechange` listener waits on the registered worker

    function Deps(): Watched
      reads this
    {
      Watched(swReady, deferredPrompt, isStandalone, userDismissed)
    }

    /** Shown, or about to be shown, only while every watched condition holds. */
    ghost predicate Valid()
      reads this
    {
      (isVisible || timerArmed) ==> swReady && deferredPrompt.Some? && !isStandalone && !userDismissed
    }

    /** What a handler leaves once the visibility effect has had its chance: with the
        watched flags as `before` nothing moves; otherwise the timer is armed when the
        prompt is ready and everything is hidden when it is not. */
    predicate Settled(before: Watched, wasVisible: bool, wasArmed: bool, online: bool)
      reads this
    {
      && (Deps() == before ==> isVisible == wasVisible && timerArmed == wasArmed)
      && (Deps() != before && !ReadyForPrompt(swReady, deferredPrompt, isStandalone, online, userDismissed) ==>
            !isVisible && !timerArmed)
      && (Deps() != before && ReadyForPrompt(swReady, deferredPrompt, isStandalone, online, userDismissed) ==>
            isVisible == wasVisible && timerArmed)
    }

    /** Mounting: the standalone check; the visibility effect's first run finds no event
        held and leaves the prompt hidden. */
    constructor(standalone: bool)
      ensures Valid() && isStandalone == standalone
      ensures deferredPrompt == None && !swReady && !isVisible && !userDismissed && !timerArmed && !listening
    {
      deferredPrompt, swReady, isStandalone := None, false, standalone;
      isVisible, userDismissed, timerArmed, listening := false, false, false, false;
    }

    /** The visibility effect: the previous timer is cleared, then either a new one is
        armed or the prompt is hidden. */
    method RunEffect(online: bool)
      modifies this
      ensures Deps() == old(Deps()) && listening == old(listening)
      ensures ReadyForPrompt(swReady, deferredPrompt, isStandalone, online, userDismissed) ==>
        timerArmed && isVisible == old(isVisible)
      ensures !ReadyForPrompt(swReady, deferredPrompt, isStandalone, online, userDismissed) ==>
        !timerArmed && !isVisible
      ensures Valid()
    {
      timerArmed := false;
      if ReadyForPrompt(swReady, deferredPrompt, isStandalone, online, userDismissed) {
        timerArmed := true;
      } else {
        isVisible := false;
      }
    }

    /** Ends a handler: the effect runs if a watched flag changed. */
    method Settle(before: Watched, online: bool)
      requires Deps() == before ==> Valid()
      modifies this
      ensures Valid() && Deps() == old(Deps()) && listening == old(listening)
      ensures Settled(before, old(isVisible), old(timerArmed), online)
    {
      if Deps() != before {
        RunEffect(online);
      }
    }

    /** The timer callback: the prompt appears. */
    method TimerFired()
      requires Valid() && timerArmed
      modifies this
      ensures Valid() && isVisible && !timerArmed && Deps() == old(Deps()) && listening == old(listening)
    {
      isVisible := true;
      timerArmed := false;
    }

    /** The display-mode `change` listener re-runs the standalone check. */
    method DisplayModeChanged(standalone: bool, online: bool)
      requires Valid()
      modifies this
      ensures Valid() && isStandalone == standalone && listening == old(listening)
      ensures swReady == old(swReady) && deferredPrompt == old(deferredPrompt) && userDismissed == old(userDismissed)
      ensures standalone ==> !isVisible && !timerArmed
      ensures Settled(old(Deps()), old(isVisible), old(timerArmed), online)
    {
      var before := Deps();
      isStandalone := standalone;
      Settle(before, online);
    }

    /** `beforeinstallprompt`: the event is kept. */
    method BeforeInstallPrompt(event: nat, online: bool)
      requires Valid()
      modifies this
      ensures Valid() && deferredPrompt == Some(event) && listening == old(listening)
      ensures swReady == old(swReady) && isStandalone == old(isStandalone) && userDismissed == old(userDismissed)
      ensures ReadyForPrompt(swReady, deferredPrompt, isStandalone, online, userDismissed) && old(deferredPrompt) != Some(event) ==>
        timerArmed
      ensures Settled(old(Deps()), old(isVisible), old(timerArmed), online)
    {
      var before := Deps();
      deferredPrompt := Some(event);
      Settle(before, online);
    }

    /** `serviceWorker.ready` resolved: ready only if the registration has an active worker. */
    method ReadyResolved(hasActive: bool, online: bool)
      requires Valid()
      modifies this
      ensures Valid() && swReady == (old(swReady) || hasActive) && listening == old(listening)
      ensures deferredPrompt == old(deferredPrompt) && isStandalone == old(isStandalone) && userDismissed == old(userDismissed)
      ensures Settled(old(Deps()), old(isVisible), old(timerArmed), online)
    {
      var before := Deps();
      if hasActive {
        swReady := true;
      }
      Settle(before, online);
    }

    /** `register('sw.js')` resolved; `worker` is the state of the first of the
        installing, waiting and active workers that exists. Ready if it is already
        activated; otherwise a `statechange` listener is attached. */
    method Registered(worker: Option<string>, online: bool)
      requires Valid()
      modifies this
      ensures Valid()
      ensures swReady == (old(swReady) || worker == Some(Activated))
      ensures listening == (old(listening) || (worker.Some? && worker.value != Activated))
      ensures deferredPrompt == old(deferredPrompt) && isStandalone == old(isStandalone) && userDismissed == old(userDismissed)
      ensures Settled(old(Deps()), old(isVisible), old(timerArmed), online)
    {
      var before := Deps();
      if worker.Some? {
        if worker.value == Activated {
          swReady := true;
        } else {
          listening := true;
        }
      }
      Settle(before, online);
    }

    /** The registered worker's `statechange`. */
    method WorkerStateChanged(state: string, online: bool)
      requires Valid()
      modifies this
      ensures Valid() && listening == old(listening)
      ensures swReady == (old(swReady) || (old(listening) && state == Activated))
      ensures deferredPrompt == old(deferredPrompt) && isStandalone == old(isStandalone) && userDismissed == old(userDismissed)
      ensures Settled(old(Deps()), old(isVisible), old(timerArmed), online)
    {
      var before := Deps();
      if listening && state == Activated {
        swReady := true;
      }
      Settle(before, online);
    }

    /** `appinstalled`: the event is dropped, the app is standalone, the prompt hidden. */
    method AppInstalled(online: bool)
      requires Valid()
      modifies this
      ensures Valid() && deferredPrompt == None && isStandalone && !isVisible && !timerArmed && listening == old(listening)
      ensures swReady == old(swReady) && userDismissed == old(userDismissed)
    {
      var before := Deps();
      deferredPrompt := None;
      isStandalone := true;
      isVisible := false;
      Settle(before, online);
    }

    /** `handleInstall`: without a kept event nothing happens; otherwise the browser's
        dialog is shown and, once the user chose, the event is dropped and the prompt
        hidden. */
    method HandleInstall(online: bool) returns (prompted: bool)
      requires Valid()
      modifies this
      ensures Valid() && prompted == old(deferredPrompt).Some? && listening == old(listening)
      ensures !prompted ==> Deps() == old(Deps()) && isVisible == old(isVisible) && timerArmed == old(timerArmed)
      ensures prompted ==> deferredPrompt == None && !isVisible && !timerArmed
      ensures swReady == old(swReady) && isStandalone == old(isStandalone) && userDismissed == old(userDismissed)
    {
      if deferredPrompt.None? {
        return false;
      }
      var before := Deps();
      deferredPrompt := None;
      isVisible := false;
      Settle(before, online);
      prompted := true;
    }

    /** `dismiss`: hidden, and never shown again. */
    method Dismiss(online: bool)
      requires Valid()
      modifies this
      ensures Valid() && userDismissed && !isVisible && !timerArmed && listening == old(listening)
      ensures swReady == old(swReady) && deferredPrompt == old(deferredPrompt) && isStandalone == old(isStandalone)
    {
      var before := Deps();
      isVisible := false;
      userDismissed := true;
      Settle(before, online);
    }
  }
}
