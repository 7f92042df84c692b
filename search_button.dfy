/**
  The trigger of src/components/SearchButton.tsx: one boolean `open` shared
  with the dialog, forced to true by the button, toggled by Ctrl+K while the
  document-level key listener is registered, and written false by the
  dialog's close event. The listener is registered on mount and aborted on
  unmount.

  `Step` is the specification of one event; `Trigger` is the component, whose
  methods are proved to follow `Step` and to keep the dialog's visibility equal
  to `open`.
 */
module SearchButton {
  import SearchDialog
  import Wrappers

  /** The fields of a `keydown` event that the handler reads (and `metaKey`, which it ignores). */
  datatype KeyEvent = KeyEvent(key: string, ctrlKey: bool, metaKey: bool)

  /** The shortcut: the Control modifier and exactly the key "k" (case-sensitive). */
  predicate IsShortcut(e: KeyEvent)
  {
    e.ctrlKey && e.key == "k"
  }

  datatype Phase = Created | Mounted | Unmounted

  /** The trigger's state: the `open` signal, where the component is in its
      life, and whether the key listener is registered on the document. */
  datatype TriggerState = TriggerState(open: bool, phase: Phase, listening: bool)

  const Initial := TriggerState(false, Created, false)

  datatype Event = Click | KeyDown(key: KeyEvent) | DialogClose | Mount | Unmount

  /** Whether the event reaches the key handler past its guard, which then calls `preventDefault()`. */
  predicate PreventsDefault(s: TriggerState, ev: Event)
  {
    ev.KeyDown? && s.listening && IsShortcut(ev.key)
  }

  /** How far the component is in its life: created, then mounted, then unmounted. */
  function Rank(p: Phase): nat
  {
    match p
    case Created => 0
    case Mounted => 1
    case Unmounted => 2
  }

  /** One event, with the listener removed on unmount. Only the life-cycle
      events move the phase and the listener, only forward, and they leave
      `open` alone; every event keeps the listener registered exactly while
      mounted. */
  function Step(s: TriggerState, ev: Event): (r: TriggerState)
    ensures ev.Mount? || ev.Unmount? ==> r.open == s.open
    ensures !(ev.Mount? || ev.Unmount?) ==> r.phase == s.phase && r.listening == s.listening
    ensures Rank(s.phase) <= Rank(r.phase)
    ensures Consistent(s) ==> Consistent(r)
  {
    match ev
    case Click => s.(open := true)
    case KeyDown(e) => if s.listening && IsShortcut(e) then s.(open := !s.open) else s
    case DialogClose => s.(open := false)
    case Mount => if s.phase == Created then s.(phase := Mounted, listening := true) else s
    case Unmount => if s.phase == Mounted then s.(phase := Unmounted, listening := false) else s
  }

  /** One event as the source is written: the abort function is returned from
      the `onMount` callback, whose return value Solid does not run as a
      cleanup, so unmounting leaves the listener registered. It differs from
      `Step` only in that, and once registered the listener is never removed. */
  function StepAsWritten(s: TriggerState, ev: Event): (r: TriggerState)
    ensures !ev.Unmount? ==> r == Step(s, ev)
    ensures ev.Unmount? ==> r == Step(s, ev).(listening := s.listening)
    ensures r.listening == (s.listening || (ev.Mount? && s.phase == Created))
  {
    match ev
    case Unmount => if s.phase == Mounted then s.(phase := Unmounted) else s
    case _ => Step(s, ev)
  }

  /** A sequence of events, applied in order, as the source is written. */
  function ReplayAsWritten(s: TriggerState, events: seq<Event>): TriggerState
    decreases |events|
  {
    if events == [] then s else ReplayAsWritten(StepAsWritten(s, events[0]), events[1..])
  }

  /** A sequence of events, applied in order. */
  function Replay(s: TriggerState, events: seq<Event>): TriggerState
    decreases |events|
  {
    if events == [] then s else Replay(Step(s, events[0]), events[1..])
  }

  /** The listener is registered exactly while the component is mounted. */
  ghost predicate Consistent(s: TriggerState)
  {
    s.listening <==> s.phase == Mounted
  }

  /** A click opens the dialog whatever its state, so clicking twice is clicking once. */
  lemma ClickOpens(s: TriggerState)
    ensures Step(s, Click).open
    ensures Step(Step(s, Click), Click) == Step(s, Click)
  {
  }

  /** While listening, Ctrl+K flips `open` and prevents the default; pressing it twice restores the state. */
  lemma ShortcutToggles(s: TriggerState, e: KeyEvent)
    requires s.listening && IsShortcut(e)
    ensures PreventsDefault(s, KeyDown(e))
    ensures Step(s, KeyDown(e)).open == !s.open
    ensures Step(Step(s, KeyDown(e)), KeyDown(e)) == s
  {
  }

  /** Any other key, with or without Control, changes nothing and keeps the default. */
  lemma OtherKeysIgnored(s: TriggerState, e: KeyEvent)
    requires !IsShortcut(e)
    ensures Step(s, KeyDown(e)) == s
    ensures !PreventsDefault(s, KeyDown(e))
  {
  }

  /** The shortcut needs Control and the lower-case key: neither Control+Shift+K
      (key "K") nor Meta+K is the shortcut, and `metaKey` never matters. */
  lemma ShortcutIsCaseSensitiveAndCtrlOnly(e: KeyEvent)
    ensures e.key != "k" ==> !IsShortcut(e)
    ensures !e.ctrlKey ==> !IsShortcut(e)
    ensures IsShortcut(e) == IsShortcut(e.(metaKey := !e.metaKey))
    ensures !IsShortcut(KeyEvent("K", true, e.metaKey))
  {
  }

  /** The default is prevented exactly for the key events that change the state. */
  lemma PreventsDefaultExactly(s: TriggerState, ev: Event)
    ensures PreventsDefault(s, ev) <==> ev.KeyDown? && Step(s, ev) != s
  {
  }

  /** The close event closes the dialog and changes nothing else. */
  lemma DialogCloseCloses(s: TriggerState)
    ensures Step(s, DialogClose) == s.(open := false)
  {
  }

  /** Exactly which events change `open`: a click on a closed dialog, a close
      event on an open one, and a Ctrl+K that reaches the listener. */
  lemma OpenChangesExactly(s: TriggerState, ev: Event)
    ensures Step(s, ev).open != s.open <==>
      (ev.Click? && !s.open) || (ev.DialogClose? && s.open) || PreventsDefault(s, ev)
  {
  }

  /** `n` presses of the same key event in a row. */
  function Presses(e: KeyEvent, n: nat): (events: seq<Event>)
    ensures |events| == n
  {
    if n == 0 then [] else [KeyDown(e)] + Presses(e, n - 1)
  }

  /** While listening, `n` Ctrl+K presses leave `open` as it was when `n` is even and flip it when odd. */
  lemma {:induction false} ShortcutParity(s: TriggerState, e: KeyEvent, n: nat)
    requires s.listening && IsShortcut(e)
    ensures Replay(s, Presses(e, n)).open == (if n % 2 == 0 then s.open else !s.open)
    ensures Replay(s, Presses(e, n)).listening
    decreases n
  {
    if n > 0 {
      var s1 := Step(s, KeyDown(e));
      assert Presses(e, n)[1..] == Presses(e, n - 1);
      ShortcutParity(s1, e, n - 1);
    }
  }

  /** Replaying two sequences one after the other is replaying their concatenation. */
  lemma {:induction false} ReplayAppend(s: TriggerState, a: seq<Event>, b: seq<Event>)
    ensures Replay(s, a + b) == Replay(Replay(s, a), b)
    decreases |a|
  {
    if a != [] {
      assert (a + b)[0] == a[0];
      assert (a + b)[1..] == a[1..] + b;
      ReplayAppend(Step(s, a[0]), a[1..], b);
    } else {
      assert a + b == b;
    }
  }

  /** Whatever came before, the last writer decides: a final click leaves the
      dialog open, a final close event leaves it closed. */
  lemma LastWriterDecides(s: TriggerState, events: seq<Event>)
    ensures Replay(s, events + [Click]).open
    ensures !Replay(s, events + [DialogClose]).open
  {
    ReplayAppend(s, events, [Click]);
    ReplayAppend(s, events, [DialogClose]);
  }

  /** After unmount, no sequence of key events changes the state. */
  lemma {:induction false} UnmountedKeysInert(s: TriggerState, events: seq<Event>)
    requires Consistent(s) && s.phase == Unmounted
    requires forall i :: 0 <= i < |events| ==> events[i].KeyDown?
    ensures Replay(s, events) == s
    decreases |events|
  {
    if events != [] {
      assert !PreventsDefault(s, events[0]);
      UnmountedKeysInert(Step(s, events[0]), events[1..]);
    }
  }

  /** Mounting and then unmounting stops the listener: from then on key events are inert. */
  lemma UnmountStopsListener(events: seq<Event>)
    requires forall i :: 0 <= i < |events| ==> events[i].KeyDown?
    ensures var s := Step(Step(Initial, Mount), Unmount);
      s.phase == Unmounted && !s.listening && Replay(s, events) == s
  {
    var s := Step(Step(Initial, Mount), Unmount);
    UnmountedKeysInert(s, events);
  }

  /** As written, a registered listener stays registered whatever follows,
      and an unmounted component never mounts again. */
  lemma {:induction false} AsWrittenListenerPersists(s: TriggerState, events: seq<Event>)
    requires s.listening
    ensures ReplayAsWritten(s, events).listening
    ensures s.phase == Unmounted ==> ReplayAsWritten(s, events).phase == Unmounted
    decreases |events|
  {
    if events != [] {
      AsWrittenListenerPersists(StepAsWritten(s, events[0]), events[1..]);
    }
  }

  /** As written, the listener survives unmount: after mounting, unmounting
      and any later events, Ctrl+K still prevents the default and flips the
      (unmounted) dialog's flag. */
  lemma AsWrittenListenerOutlivesUnmount(events: seq<Event>, e: KeyEvent)
    requires IsShortcut(e)
    ensures var s := ReplayAsWritten(StepAsWritten(StepAsWritten(Initial, Mount), Unmount), events);
      && s.phase == Unmounted
      && s.listening
      && PreventsDefault(s, KeyDown(e))
      && StepAsWritten(s, KeyDown(e)).open == !s.open
  {
    AsWrittenListenerPersists(StepAsWritten(StepAsWritten(Initial, Mount), Unmount), events);
  }

  /** The component: the `open` signal, its life cycle and listener, and the
      dialog it renders, whose modal visibility the effect keeps equal to `open`. */
  class Trigger {
    var open: bool
    var phase: Phase
    var listening: bool
    const dialog: SearchDialog.Dialog

    ghost function State(): TriggerState
      reads this
    {
      TriggerState(open, phase, listening)
    }

    ghost predicate Valid()
      reads this, dialog, dialog.searcher, dialog.searcher.imported
    {
      Consistent(State()) && dialog.shown == open && dialog.Valid()
    }

    /** Rendering the component: `open` starts false and the dialog is created closed. */
    constructor (searcher: SearchDialog.SearchIndex)
      requires searcher.Valid()
      ensures Valid() && State() == Initial
      ensures fresh(dialog) && dialog.searcher == searcher && dialog.query == ""
    {
      open := false;
      phase := Created;
      listening := false;
      dialog := new SearchDialog.Dialog(searcher);
    }

    /** `onMount`: the key listener is registered on the document. */
    method Mount()
      requires Valid() && phase == Created
      modifies this
      ensures Valid() && State() == Step(old(State()), Event.Mount)
    {
      phase := Mounted;
      listening := true;
    }

    /** Unmount: the controller aborts and the listener is gone. */
    method Unmount()
      requires Valid() && phase == Mounted
      modifies this
      ensures Valid() && State() == Step(old(State()), Event.Unmount)
    {
      phase := Unmounted;
      listening := false;
    }

    /** The button's `onClick`: `setOpen(true)`, and the dialog is shown. */
    method Click()
      requires Valid()
      modifies this, dialog`shown
      ensures Valid() && State() == Step(old(State()), Event.Click)
      ensures open && dialog.shown
    {
      open := true;
      dialog.Follow(open);
    }

    /** The document's `keydown` handler, when registered; `prevented` tells
        whether `preventDefault()` was called. */
    method KeyDown(e: KeyEvent) returns (prevented: bool)
      requires Valid()
      modifies this, dialog`shown
      ensures Valid() && State() == Step(old(State()), Event.KeyDown(e))
      ensures prevented == PreventsDefault(old(State()), Event.KeyDown(e))
      ensures open == (if prevented then !old(open) else old(open))
    {
      if !listening || !IsShortcut(e) {
        return false;
      }
      prevented := true;
      open := !open;
      dialog.Follow(open);
    }

    /** The dialog's `close` event, fired when it is dismissed natively (such as
        by Escape) or closed by the effect: `onOpenChange(false)`. */
    method DialogClose()
      requires Valid()
      modifies this, dialog`shown
      ensures Valid() && State() == Step(old(State()), Event.DialogClose)
      ensures !open && !dialog.shown
    {
      open := false;
      dialog.Follow(open);
    }
  }

  /** A visitor's session: Ctrl+K opens, Ctrl+K closes, and after unmount the
      shortcut is dead. */
  method Session(lookup: string -> Wrappers.Option<seq<SearchDialog.Match>>)
  {
    var index := new SearchDialog.Pagefind(lookup);
    var searcher := new SearchDialog.SearchIndex(index);
    var t := new Trigger(searcher);
    t.Mount();
    var ctrlK := KeyEvent("k", true, false);
    var prevented := t.KeyDown(ctrlK);
    assert prevented && t.open && t.dialog.shown;
    prevented := t.KeyDown(ctrlK);
    assert prevented && !t.open && !t.dialog.shown;
    t.Unmount();
    prevented := t.KeyDown(ctrlK);
    assert !prevented && !t.open;
  }

  /** Typing in the dialog: a query searches and initialises the index once,
      clearing the input empties the list, a later query does not initialise
      again, and an input event that leaves the query as it was issues no
      lookup. */
  method TypingSession(lookup: string -> Wrappers.Option<seq<SearchDialog.Match>>)
  {
    var index := new SearchDialog.Pagefind(lookup);
    var searcher := new SearchDialog.SearchIndex(index);
    var dialog := new SearchDialog.Dialog(searcher);
    dialog.OnInput("rust");
    assert dialog.results == SearchDialog.SearchResults(lookup, "rust");
    assert index.initCount == 1;
    dialog.OnInput("");
    assert dialog.results == SearchDialog.SearchResults(lookup, "") == [];
    dialog.OnInput("dafny");
    assert index.initCount == 1;
    var lookups := index.calls;
    dialog.OnInput("dafny");
    assert index.calls == lookups;
  }
}
