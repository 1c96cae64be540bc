/**
 * `debug/debug-ui.js`: the overlay's visibility, the `SA_DEBUG` flag it persists, and the
 * five-tap gesture on the app header that toggles it. The gesture is a pure step on a
 * tap counter (`Tap`); a click runs it once per attached listener (`Click`); a burst of
 * clicks folds that over their times (`After`, `ToggleCounts`).
 */
module DebugUi {
  import opened Wrappers
  import Browser

  const OverlayId: string := "debug-overlay"
  const ToggleTaps: nat := 5
  /** Milliseconds allowed between two taps of one gesture. */
  const TapTimeout: int := 800
  const FlagKey: string := "SA_DEBUG"

  /** What `show` and `hide` write under `SA_DEBUG`. */
  function FlagValue(visible: bool): string {
    if visible then "true" else "false"
  }

  // ------------------------------------------------------------------ the gesture

  /** `tapCount` and `lastTapTime`. */
  datatype Taps = Taps(count: nat, last: int)

  /** One run of the click handler: the new counter and whether it called `toggle`. */
  datatype Tapped = Tapped(taps: Taps, toggled: bool)

  /** The header's click handler at time `now`, apart from the toggle and the toast. */
  function Tap(t: Taps, now: int): Tapped {
    var c := if now - t.last > TapTimeout then 1 else t.count + 1;
    if c >= ToggleTaps then Tapped(Taps(0, now), true) else Tapped(Taps(c, now), false)
  }

  /** A tap more than 800 ms after the last one starts a new gesture and never toggles. */
  lemma TapSlow(t: Taps, now: int)
    requires now - t.last > TapTimeout
    ensures Tap(t, now) == Tapped(Taps(1, now), false)
  {
  }

  /** A quick tap counts one more, and toggles (resetting the count) when it is the fifth. */
  lemma TapQuick(t: Taps, now: int)
    requires t.count < ToggleTaps && now - t.last <= TapTimeout
    ensures Tap(t, now).toggled <==> t.count == ToggleTaps - 1
    ensures Tap(t, now).taps == Taps((t.count + 1) % ToggleTaps, now)
  {
  }

  /** The count never reaches five between taps. */
  lemma TapBelow(t: Taps, now: int)
    ensures Tap(t, now).taps.count < ToggleTaps
  {
  }

  /** The effect of one click: the counter after it and how many times it toggled. */
  datatype Clicked = Clicked(taps: Taps, toggles: nat)

  /**
   * One click on the header at time `now`: each of the `listeners` attached copies of the
   * handler runs in turn, all seeing the same time.
   */
  function Click(t: Taps, now: int, listeners: nat): Clicked
    decreases listeners
  {
    if listeners == 0 then Clicked(t, 0)
    else
      var a := Tap(t, now);
      var r := Click(a.taps, now, listeners - 1);
      Clicked(r.taps, r.toggles + (if a.toggled then 1 else 0))
  }

  lemma DivModAdd(a: nat, b: nat)
    ensures (a % ToggleTaps + b) % ToggleTaps == (a + b) % ToggleTaps
    ensures a / ToggleTaps + (a % ToggleTaps + b) / ToggleTaps == (a + b) / ToggleTaps
  {
  }

  /**
   * Within a gesture, a click runs n quick taps: the count goes up by n modulo five and
   * it toggles once per multiple of five passed.
   */
  lemma {:induction false} ClickQuick(t: Taps, now: int, n: nat)
    requires t.count < ToggleTaps && now - t.last <= TapTimeout
    ensures Click(t, now, n).taps.count == (t.count + n) % ToggleTaps
    ensures Click(t, now, n).toggles == (t.count + n) / ToggleTaps
    ensures n > 0 ==> Click(t, now, n).taps.last == now
    decreases n
  {
    if n > 0 {
      var a := Tap(t, now);
      TapQuick(t, now);
      ClickQuick(a.taps, now, n - 1);
      DivModAdd(t.count + 1, n - 1);
    }
  }

  /** The first click of a gesture with n listeners counts n taps from zero. */
  lemma ClickFresh(t: Taps, now: int, n: nat)
    requires now - t.last > TapTimeout && n > 0
    ensures Click(t, now, n).taps == Taps(n % ToggleTaps, now)
    ensures Click(t, now, n).toggles == n / ToggleTaps
  {
    TapSlow(t, now);
    ClickQuick(Taps(1, now), now, n - 1);
  }

  /** Each click after the first comes within 800 ms of the one before. */
  predicate Quick(times: seq<int>) {
    forall i :: 0 < i < |times| ==> times[i] - times[i - 1] <= TapTimeout
  }

  /** The first click comes more than 800 ms after the last tap counted. */
  predicate Fresh(t: Taps, times: seq<int>) {
    |times| > 0 && times[0] - t.last > TapTimeout
  }

  /** The counter after clicks at the given times. */
  function After(t: Taps, times: seq<int>, listeners: nat): Taps
    decreases |times|
  {
    if |times| == 0 then t
    else Click(After(t, times[..|times| - 1], listeners), times[|times| - 1], listeners).taps
  }

  /** How many times each of the clicks toggled the overlay. */
  function ToggleCounts(t: Taps, times: seq<int>, listeners: nat): (ts: seq<nat>)
    ensures |ts| == |times|
    decreases |times|
  {
    if |times| == 0 then []
    else
      var prefix := times[..|times| - 1];
      ToggleCounts(t, prefix, listeners) + [Click(After(t, prefix, listeners), times[|times| - 1], listeners).toggles]
  }

  function Total(ts: seq<nat>): nat {
    if |ts| == 0 then 0 else Total(ts[..|ts| - 1]) + ts[|ts| - 1]
  }

  lemma MulPred(l: nat, n: nat)
    requires n > 0
    ensures l * (n - 1) + l == l * n
  {
  }

  /**
   * A quick burst of clicks with `listeners` attached handlers counts `listeners` taps per
   * click: the count ends at their number modulo five.
   */
  lemma {:induction false} BurstAfter(t: Taps, times: seq<int>, listeners: nat)
    requires Fresh(t, times) && Quick(times) && listeners > 0
    ensures After(t, times, listeners) == Taps((listeners * |times|) % ToggleTaps, times[|times| - 1])
    decreases |times|
  {
    var n := |times|;
    var prefix := times[..n - 1];
    if n == 1 {
      ClickFresh(t, times[0], listeners);
    } else {
      assert Fresh(t, prefix) && Quick(prefix);
      BurstAfter(t, prefix, listeners);
      var p := After(t, prefix, listeners);
      var a := listeners * (n - 1);
      MulPred(listeners, n);
      assert a + listeners == listeners * n;
      assert p == Taps(a % ToggleTaps, times[n - 2]);
      ClickQuick(p, times[n - 1], listeners);
      DivModAdd(a, listeners);
      assert Click(p, times[n - 1], listeners).taps.count == (a + listeners) % ToggleTaps;
    }
  }

  /** ... and the overlay toggles once per five of those taps. */
  lemma {:induction false} BurstTotal(t: Taps, times: seq<int>, listeners: nat)
    requires Fresh(t, times) && Quick(times) && listeners > 0
    ensures Total(ToggleCounts(t, times, listeners)) == (listeners * |times|) / ToggleTaps
    decreases |times|
  {
    var n := |times|;
    var prefix := times[..n - 1];
    var ts := ToggleCounts(t, times, listeners);
    assert ts[..n - 1] == ToggleCounts(t, prefix, listeners);
    if n == 1 {
      ClickFresh(t, times[0], listeners);
    } else {
      assert Fresh(t, prefix) && Quick(prefix);
      BurstTotal(t, prefix, listeners);
      BurstAfter(t, prefix, listeners);
      var p := After(t, prefix, listeners);
      var a := listeners * (n - 1);
      assert p == Taps(a % ToggleTaps, times[n - 2]);
      ClickQuick(p, times[n - 1], listeners);
      DivModAdd(a, listeners);
      MulPred(listeners, n);
    }
  }

  /** The toggles of click i are those of the click made after the i clicks before it. */
  lemma {:induction false} ToggleCountsAt(t: Taps, times: seq<int>, listeners: nat, i: nat)
    requires i < |times|
    ensures ToggleCounts(t, times, listeners)[i] == Click(After(t, times[..i], listeners), times[i], listeners).toggles
    decreases |times|
  {
    var n := |times|;
    var prefix := times[..n - 1];
    if i < n - 1 {
      ToggleCountsAt(t, prefix, listeners, i);
      assert prefix[..i] == times[..i];
    } else {
      assert prefix == times[..i];
    }
  }

  /**
   * With one listener, a quick burst toggles the overlay on its 5th, 10th, ... click and on
   * no other: the gesture the header promises.
   */
  lemma SingleListenerTaps(t: Taps, times: seq<int>)
    requires Fresh(t, times) && Quick(times)
    ensures forall i :: 0 <= i < |times| ==>
      ToggleCounts(t, times, 1)[i] == (if (i + 1) % ToggleTaps == 0 then 1 else 0)
  {
    forall i | 0 <= i < |times|
      ensures ToggleCounts(t, times, 1)[i] == (if (i + 1) % ToggleTaps == 0 then 1 else 0)
    {
      SingleListenerClick(t, times, i);
    }
  }

  /** With the handler attached once, click i + 1 of a quick burst toggles iff i + 1 is a multiple of five. */
  lemma SingleListenerClick(t: Taps, times: seq<int>, i: nat)
    requires Fresh(t, times) && Quick(times) && i < |times|
    ensures ToggleCounts(t, times, 1)[i] == (if (i + 1) % ToggleTaps == 0 then 1 else 0)
  {
    ToggleCountsAt(t, times, 1, i);
    if i == 0 {
      ClickFresh(t, times[0], 1);
    } else {
      var prefix := times[..i];
      assert Fresh(t, prefix) && Quick(prefix);
      BurstAfter(t, prefix, 1);
      assert After(t, prefix, 1).count == i % ToggleTaps;
      ClickQuick(After(t, prefix, 1), times[i], 1);
      NextTap(i);
    }
  }

  /** The tap after i taps (counted modulo five) reaches five iff i + 1 is a multiple of five. */
  lemma NextTap(i: nat)
    ensures (i % ToggleTaps + 1) / ToggleTaps == if (i + 1) % ToggleTaps == 0 then 1 else 0
  {
  }

  /** With the handler attached twice, click i + 1 of a quick burst leaves the count at 2(i + 1) modulo five. */
  lemma DoubleListenerClick(t: Taps, times: seq<int>, i: nat)
    requires Fresh(t, times) && Quick(times) && i < |times|
    ensures ToggleCounts(t, times, 2)[i] == if i == 0 then 0 else ((2 * i) % ToggleTaps + 2) / ToggleTaps
  {
    ToggleCountsAt(t, times, 2, i);
    if i == 0 {
      ClickFresh(t, times[0], 2);
    } else {
      assert Fresh(t, times[..i]) && Quick(times[..i]);
      BurstAfter(t, times[..i], 2);
      ClickQuick(After(t, times[..i], 2), times[i], 2);
    }
  }

  /**
   * With the handler attached twice, as `initUI` run a second time leaves it, the third
   * quick click already toggles, and five quick clicks toggle twice, leaving the overlay
   * as it was.
   */
  lemma DoubleListenerTaps(t: Taps, times: seq<int>)
    requires Fresh(t, times) && Quick(times) && |times| >= 3
    ensures ToggleCounts(t, times, 2)[0] == 0 && ToggleCounts(t, times, 2)[1] == 0
    ensures ToggleCounts(t, times, 2)[2] == 1
    ensures |times| == 5 ==> Total(ToggleCounts(t, times, 2)) == 2
  {
    DoubleListenerClick(t, times, 0);
    DoubleListenerClick(t, times, 1);
    DoubleListenerClick(t, times, 2);
    if |times| == 5 {
      BurstTotal(t, times, 2);
    }
  }

  /** Visibility after `flips` toggles. */
  function Flip(visible: bool, flips: nat): bool {
    if flips % 2 == 1 then !visible else visible
  }

  // ------------------------------------------------------------------ the overlay

  /**
   * The module state of `debug-ui.js` and the document parts it touches. `overlay` is
   * `overlayElement` being set; `overlayInDom` is an element with id `debug-overlay` being
   * in the document; `listeners` counts the tap handlers attached to the header and
   * `subscriptions` the copies of `onNewLog` subscribed to the logger.
   */
  class Ui {
    const ls: Browser.LocalStorage
    /** Whether the document has a `.header` or `.brand` element. */
    const headerPresent: bool
    var overlayInDom: bool
    var overlay: bool
    var visible: bool
    var taps: Taps
    var listeners: nat
    var subscriptions: nat

    /** The state when the module is evaluated. */
    constructor (ls: Browser.LocalStorage, headerPresent: bool, overlayInDom: bool)
      ensures this.ls == ls && this.headerPresent == headerPresent && this.overlayInDom == overlayInDom
      ensures !overlay && !visible && taps == Taps(0, 0) && listeners == 0 && subscriptions == 0
    {
      this.ls := ls;
      this.headerPresent := headerPresent;
      this.overlayInDom := overlayInDom;
      overlay := false;
      visible := false;
      taps := Taps(0, 0);
      listeners := 0;
      subscriptions := 0;
    }

    /**
     * What the corrected model keeps: between taps the count is below five, and at most
     * one tap handler is attached.
     */
    predicate Valid()
      reads this
    {
      taps.count < ToggleTaps && listeners <= 1
    }

    /** `createOverlay`: does nothing when the document already has the overlay's id. */
    method CreateOverlay()
      modifies this
      ensures old(overlayInDom) ==> overlay == old(overlay)
      ensures !old(overlayInDom) ==> overlay
      ensures overlayInDom
      ensures visible == old(visible) && taps == old(taps) && listeners == old(listeners)
      ensures subscriptions == old(subscriptions)
    {
      if !overlayInDom {
        overlay := true;
        overlayInDom := true;
      }
    }

    /** `attachTapListener`: adds one more handler, when there is a header to take it. */
    method AttachTapListener()
      modifies this
      ensures listeners == old(listeners) + (if headerPresent then 1 else 0)
      ensures overlay == old(overlay) && overlayInDom == old(overlayInDom)
      ensures visible == old(visible) && taps == old(taps) && subscriptions == old(subscriptions)
    {
      if headerPresent {
        listeners := listeners + 1;
      }
    }

    /** `show`: with an overlay, shows it and stores `SA_DEBUG` = 'true'; otherwise nothing. */
    method Show()
      modifies this, ls
      ensures old(overlay) ==> visible && ls.items == old(ls.items)[FlagKey := "true"]
      ensures !old(overlay) ==> visible == old(visible) && ls.items == old(ls.items)
      ensures overlay == old(overlay) && overlayInDom == old(overlayInDom) && taps == old(taps)
      ensures listeners == old(listeners) && subscriptions == old(subscriptions)
    {
      if overlay {
        visible := true;
        ls.items := ls.items[FlagKey := "true"];
      }
    }

    /** `hide`: with an overlay, hides it and stores `SA_DEBUG` = 'false'; otherwise nothing. */
    method Hide()
      modifies this, ls
      ensures old(overlay) ==> !visible && ls.items == old(ls.items)[FlagKey := "false"]
      ensures !old(overlay) ==> visible == old(visible) && ls.items == old(ls.items)
      ensures overlay == old(overlay) && overlayInDom == old(overlayInDom) && taps == old(taps)
      ensures listeners == old(listeners) && subscriptions == old(subscriptions)
    {
      if overlay {
        visible := false;
        ls.items := ls.items[FlagKey := "false"];
      }
    }

    /** `toggle`: with an overlay, flips it and stores the new state; otherwise nothing. */
    method Toggle()
      modifies this, ls
      ensures visible == if old(overlay) then !old(visible) else old(visible)
      ensures ls.items == if old(overlay) then old(ls.items)[FlagKey := FlagValue(visible)] else old(ls.items)
      ensures overlay == old(overlay) && overlayInDom == old(overlayInDom) && taps == old(taps)
      ensures listeners == old(listeners) && subscriptions == old(subscriptions)
    {
      if visible {
        Hide();
      } else {
        Show();
      }
    }

    /** One run of the header's click handler at time `now`, without the toast. */
    method TapHandler(now: int)
      modifies this, ls
      ensures taps == Tap(old(taps), now).taps
      ensures visible == if Tap(old(taps), now).toggled && old(overlay) then !old(visible) else old(visible)
      ensures ls.items == if Tap(old(taps), now).toggled && old(overlay)
        then old(ls.items)[FlagKey := FlagValue(visible)] else old(ls.items)
      ensures overlay == old(overlay) && overlayInDom == old(overlayInDom)
      ensures listeners == old(listeners) && subscriptions == old(subscriptions)
      ensures taps.count < ToggleTaps
    {
      var count: nat;
      if now - taps.last > TapTimeout {
        count := 1;
      } else {
        count := taps.count + 1;
      }
      taps := Taps(count, now);
      if count >= ToggleTaps {
        Toggle();
        taps := Taps(0, now);
      }
    }

    /** A click on the header: the browser runs every attached handler in turn. */
    method ClickHeader(now: int)
      modifies this, ls
      ensures old(Valid()) ==> Valid()
      ensures taps == Click(old(taps), now, listeners).taps
      ensures visible == if overlay then Flip(old(visible), Click(old(taps), now, listeners).toggles) else old(visible)
      ensures ls.items == if overlay && Click(old(taps), now, listeners).toggles > 0
        then old(ls.items)[FlagKey := FlagValue(visible)] else old(ls.items)
      ensures overlay == old(overlay) && overlayInDom == old(overlayInDom)
      ensures listeners == old(listeners) && subscriptions == old(subscriptions)
    {
      ghost var flips: nat := 0;
      var i := 0;
      while i < listeners
        invariant 0 <= i <= listeners
        invariant Click(old(taps), now, listeners) == Clicked(Click(taps, now, listeners - i).taps, flips + Click(taps, now, listeners - i).toggles)
        invariant visible == if overlay then Flip(old(visible), flips) else old(visible)
        invariant ls.items == if overlay && flips > 0 then old(ls.items)[FlagKey := FlagValue(visible)] else old(ls.items)
        invariant overlay == old(overlay) && overlayInDom == old(overlayInDom)
        invariant listeners == old(listeners) && subscriptions == old(subscriptions)
        invariant old(Valid()) ==> Valid()
      {
        var toggled := Tap(taps, now).toggled;
        TapHandler(now);
        if toggled {
          flips := flips + 1;
        }
        i := i + 1;
      }
    }

    /**
     * `initUI`, with the tap listener and the logger subscription set up only on the first
     * call: the overlay (unless the document has one), one tap handler, the subscription,
     * and the overlay shown when `SA_DEBUG` is 'true'. The source attaches a handler on
     * every call; see `InitUiAsWritten`.
     */
    method InitUi() returns (ok: bool)
      modifies this, ls
      ensures ok
      ensures old(Valid()) ==> Valid()
      ensures listeners == if old(listeners) == 0 && headerPresent then 1 else old(listeners)
      ensures subscriptions == if old(subscriptions) == 0 then 1 else old(subscriptions)
      ensures overlayInDom && (!old(overlayInDom) ==> overlay) && (old(overlayInDom) ==> overlay == old(overlay))
      ensures old(ls.Stored(FlagKey)) == Some("true") && overlay ==> visible && ls.items == old(ls.items)[FlagKey := "true"]
      ensures old(ls.Stored(FlagKey)) != Some("true") || !overlay ==> visible == old(visible) && ls.items == old(ls.items)
      ensures taps == old(taps)
    {
      CreateOverlay();
      if listeners == 0 {
        AttachTapListener();
      }
      if subscriptions == 0 {
        subscriptions := subscriptions + 1;
      }
      var saved := ls.GetItem(FlagKey);
      if saved == Some("true") {
        Show();
      }
      ok := true;
    }

    /** `initUI` as written: every call attaches one more tap handler and subscribes again. */
    method InitUiAsWritten() returns (ok: bool)
      modifies this, ls
      ensures ok
      ensures listeners == old(listeners) + (if headerPresent then 1 else 0)
      ensures old(listeners) > 0 && headerPresent ==> !Valid()
      ensures subscriptions == old(subscriptions) + 1
      ensures overlayInDom && (!old(overlayInDom) ==> overlay) && (old(overlayInDom) ==> overlay == old(overlay))
      ensures old(ls.Stored(FlagKey)) == Some("true") && overlay ==> visible && ls.items == old(ls.items)[FlagKey := "true"]
      ensures old(ls.Stored(FlagKey)) != Some("true") || !overlay ==> visible == old(visible) && ls.items == old(ls.items)
      ensures taps == old(taps)
    {
      CreateOverlay();
      AttachTapListener();
      subscriptions := subscriptions + 1;
      var saved := ls.GetItem(FlagKey);
      if saved == Some("true") {
        Show();
      }
      ok := true;
    }

    /**
     * `destroy`: removes the overlay it created and unsubscribes `onNewLog`, which drops
     * every copy of it; the tap handlers and `isVisible` stay.
     */
    method Destroy()
      modifies this
      ensures !overlay && (old(overlay) ==> !overlayInDom) && (!old(overlay) ==> overlayInDom == old(overlayInDom))
      ensures subscriptions == 0
      ensures visible == old(visible) && taps == old(taps) && listeners == old(listeners)
    {
      if overlay {
        overlay := false;
        overlayInDom := false;
      }
      subscriptions := 0;
    }
  }
}
