/** The entities behind hardware-key listening: listeners and their keys, the
    observable collection that holds them, the `HardwareKeyListenerBehavior`
    that owns that collection, the visual elements it attaches to, and the
    page-wide focused element. */
module HardwareKeyListening {
  import opened Wrappers

  /** `HardwareKeyModifierKeys`, a flags enum; only equality of values matters here. */
  type ModifierKeys = nat

  /** `HardwareKeyModifierKeys.None`. */
  const NoModifiers: ModifierKeys := 0

  datatype HardwareKey = HardwareKey(keyInput: Option<string>, modifierKeys: ModifierKeys, discoverableTitle: Option<string>)

  /** An `EventHandler<HardwareKeyEventArgs>` delegate, by identity. */
  datatype KeyHandler = KeyHandler(id: nat)

  /** A `HardwareKeyListener`: compared by reference. */
  class HardwareKeyListener {
    const hardwareKey: HardwareKey
    const onPressed: Option<KeyHandler>

    constructor (hardwareKey: HardwareKey, onPressed: Option<KeyHandler>)
      ensures this.hardwareKey == hardwareKey && this.onPressed == onPressed
    {
      this.hardwareKey := hardwareKey;
      this.onPressed := onPressed;
    }
  }

  /** Whether `listener` listens for this key input with exactly these modifiers. */
  predicate MatchesKey(listener: HardwareKeyListener, keyInput: Option<string>, modifiers: ModifierKeys) {
    listener.hardwareKey.keyInput == keyInput && listener.hardwareKey.modifierKeys == modifiers
  }

  /** The list without its first listener for the given key, if there is one. */
  function RemoveFirstKeyMatch(items: seq<HardwareKeyListener>, keyInput: Option<string>, modifiers: ModifierKeys)
    : seq<HardwareKeyListener>
  {
    if items == [] then []
    else if MatchesKey(items[0], keyInput, modifiers) then items[1..]
    else [items[0]] + RemoveFirstKeyMatch(items[1..], keyInput, modifiers)
  }

  /** With no listener for the key, the list is unchanged. */
  lemma {:induction false} RemoveFirstKeyMatchAbsent(items: seq<HardwareKeyListener>, keyInput: Option<string>,
                                                     modifiers: ModifierKeys)
    requires forall j :: 0 <= j < |items| ==> !MatchesKey(items[j], keyInput, modifiers)
    ensures RemoveFirstKeyMatch(items, keyInput, modifiers) == items
  {
    if items != [] {
      RemoveFirstKeyMatchAbsent(items[1..], keyInput, modifiers);
    }
  }

  /** Otherwise exactly the first listener for the key is dropped and the rest
      keep their order. */
  lemma {:induction false} RemoveFirstKeyMatchAt(items: seq<HardwareKeyListener>, keyInput: Option<string>,
                                                 modifiers: ModifierKeys, k: nat)
    requires k < |items| && MatchesKey(items[k], keyInput, modifiers)
    requires forall j :: 0 <= j < k ==> !MatchesKey(items[j], keyInput, modifiers)
    ensures RemoveFirstKeyMatch(items, keyInput, modifiers) == items[..k] + items[k + 1..]
  {
    if k > 0 {
      var rest := items[1..];
      assert rest[k - 1] == items[k];
      RemoveFirstKeyMatchAt(rest, keyInput, modifiers, k - 1);
      assert rest[..k - 1] == items[1..k];
      assert rest[k..] == items[k + 1..];
      assert items[..k] == [items[0]] + items[1..k];
    }
  }

  /** The list without the first occurrence of `listener`, if any (`Collection.Remove`). */
  function RemoveFirst(items: seq<HardwareKeyListener>, listener: HardwareKeyListener): seq<HardwareKeyListener>
  {
    if items == [] then []
    else if items[0] == listener then items[1..]
    else [items[0]] + RemoveFirst(items[1..], listener)
  }

  /** Removing a listener that is absent changes nothing. */
  lemma {:induction false} RemoveFirstAbsent(items: seq<HardwareKeyListener>, listener: HardwareKeyListener)
    requires listener !in items
    ensures RemoveFirst(items, listener) == items
  {
    if items != [] {
      assert items == [items[0]] + items[1..];
      RemoveFirstAbsent(items[1..], listener);
    }
  }

  /** Removing a present listener drops its first occurrence and nothing else,
      keeping the order. */
  lemma {:induction false} RemoveFirstAt(items: seq<HardwareKeyListener>, listener: HardwareKeyListener, k: nat)
    requires k < |items| && items[k] == listener && listener !in items[..k]
    ensures RemoveFirst(items, listener) == items[..k] + items[k + 1..]
  {
    if k > 0 {
      var rest := items[1..];
      assert items[0] in items[..k];
      assert rest[..k - 1] == items[1..k];
      RemoveFirstAt(rest, listener, k - 1);
      assert rest[k..] == items[k + 1..];
      assert items[..k] == [items[0]] + items[1..k];
    }
  }

  /** Removing a present listener takes away exactly one occurrence of it. */
  lemma {:induction false} RemoveFirstCount(items: seq<HardwareKeyListener>, listener: HardwareKeyListener)
    requires listener in items
    ensures multiset(RemoveFirst(items, listener)) == multiset(items) - multiset{listener}
    ensures |RemoveFirst(items, listener)| == |items| - 1
  {
    assert items == [items[0]] + items[1..];
    if items[0] != listener {
      RemoveFirstCount(items[1..], listener);
    }
  }

  /** The `ObservableCollection<HardwareKeyListener>` a behaviour owns. */
  class ListenerCollection {
    var items: seq<HardwareKeyListener>

    constructor ()
      ensures items == []
    {
      items := [];
    }

    method Add(listener: HardwareKeyListener)
      modifies this
      ensures items == old(items) + [listener]
    {
      items := items + [listener];
    }

    method RemoveAt(index: nat)
      requires index < |items|
      modifies this
      ensures items == old(items[..index]) + old(items[index + 1..])
    {
      items := items[..index] + items[index + 1..];
    }

    method Contains(listener: HardwareKeyListener) returns (found: bool)
      ensures found <==> listener in items
    {
      found := listener in items;
    }

    method Remove(listener: HardwareKeyListener)
      modifies this
      ensures items == RemoveFirst(old(items), listener)
    {
      items := RemoveFirst(items, listener);
    }

    method Clear()
      modifies this
      ensures items == []
    {
      items := [];
    }
  }

  /** A behaviour attached to a visual element: a hardware-key listener
      behaviour, or one of any other kind. */
  datatype AttachedBehavior =
    | ListenerBehavior(behavior: HardwareKeyListenerBehavior)
    | OtherBehavior(id: nat)

  /** A `VisualElement`, as far as its `Behaviors` list goes. */
  class VisualElement {
    var behaviors: seq<AttachedBehavior>

    constructor (behaviors: seq<AttachedBehavior>)
      ensures this.behaviors == behaviors
    {
      this.behaviors := behaviors;
    }
  }

  /** The page-wide static `HardwareKeyPage.FocusedElement`. */
  class HardwareKeyPage {
    var focusedElement: VisualElement?

    constructor ()
      ensures focusedElement == null
    {
      focusedElement := null;
    }
  }

  /** The first hardware-key listener behaviour in a behaviours list. */
  function FirstListenerBehavior(behaviors: seq<AttachedBehavior>): (r: Option<HardwareKeyListenerBehavior>)
    ensures r.Some? <==> exists i :: 0 <= i < |behaviors| && behaviors[i].ListenerBehavior?
    ensures r.Some? ==> exists i :: (&& 0 <= i < |behaviors| && behaviors[i] == ListenerBehavior(r.value)
                                      && forall j :: 0 <= j < i ==> behaviors[j].OtherBehavior?)
  {
    if behaviors == [] then Null
    else if behaviors[0].ListenerBehavior? then Some(behaviors[0].behavior)
    else
      var r := FirstListenerBehavior(behaviors[1..]);
      assert r.Some? ==> exists i :: 0 <= i < |behaviors| && behaviors[i].ListenerBehavior? by {
        if r.Some? {
          var i :| 0 <= i < |behaviors| - 1 && behaviors[1..][i].ListenerBehavior?;
          assert behaviors[i + 1].ListenerBehavior?;
        }
      }
      assert r.Some? ==> exists i :: (&& 0 <= i < |behaviors| && behaviors[i] == ListenerBehavior(r.value)
                                       && forall j :: 0 <= j < i ==> behaviors[j].OtherBehavior?) by {
        if r.Some? {
          var i :| (&& 0 <= i < |behaviors| - 1 && behaviors[1..][i] == ListenerBehavior(r.value)
                    && forall j :: 0 <= j < i ==> behaviors[1..][j].OtherBehavior?);
          assert behaviors[i + 1] == ListenerBehavior(r.value);
          assert forall j :: 0 <= j < i + 1 ==> behaviors[j].OtherBehavior? by {
            forall j | 0 <= j < i + 1 ensures behaviors[j].OtherBehavior? {
              if j > 0 { assert behaviors[j] == behaviors[1..][j - 1]; }
            }
          }
        }
      }
      assert (exists i :: 0 <= i < |behaviors| && behaviors[i].ListenerBehavior?) ==> r.Some? by {
        if exists i :: 0 <= i < |behaviors| && behaviors[i].ListenerBehavior? {
          var i :| 0 <= i < |behaviors| && behaviors[i].ListenerBehavior?;
          assert i > 0 && behaviors[1..][i - 1].ListenerBehavior?;
        }
      }
      r
  }

  /** The collection that `GetHardwareKeyListeners` would hand out without
      creating anything: that of the element's first listener behaviour. */
  function ListenerFrame(ve: VisualElement): set<object>
    reads ve
  {
    var b := FirstListenerBehavior(ve.behaviors);
    if b.Some? then {b.value.hardwareKeyListeners} else {}
  }

  /** The element's hardware-key listeners; none while no behaviour is attached. */
  function ListenersOf(ve: VisualElement): seq<HardwareKeyListener>
    reads ve, ListenerFrame(ve)
  {
    var b := FirstListenerBehavior(ve.behaviors);
    if b.Some? then b.value.hardwareKeyListeners.items else []
  }

  /** `HardwareKeyListenerBehavior`: owns the listener collection of one element. */
  class HardwareKeyListenerBehavior {
    const hardwareKeyListeners: ListenerCollection

    constructor ()
      ensures fresh(hardwareKeyListeners) && hardwareKeyListeners.items == []
    {
      hardwareKeyListeners := new ListenerCollection();
    }

    /** `GetFor`: the element's first listener behaviour, or a new one appended
        to its behaviours; null for a null element. */
    static method GetFor(ve: VisualElement?) returns (r: HardwareKeyListenerBehavior?)
      modifies ve
      ensures ve == null ==> r == null
      ensures ve != null && old(FirstListenerBehavior(ve.behaviors)).Some? ==>
        r == old(FirstListenerBehavior(ve.behaviors)).value && ve.behaviors == old(ve.behaviors)
      ensures ve != null && old(FirstListenerBehavior(ve.behaviors)).Null? ==>
        && r != null && fresh(r) && fresh(r.hardwareKeyListeners) && r.hardwareKeyListeners.items == []
        && ve.behaviors == old(ve.behaviors) + [ListenerBehavior(r)]
      ensures ve != null ==> r != null && FirstListenerBehavior(ve.behaviors) == Some(r)
    {
      if ve == null {
        return null;
      }
      var i := 0;
      while i < |ve.behaviors|
        invariant 0 <= i <= |ve.behaviors|
        invariant forall j :: 0 <= j < i ==> ve.behaviors[j].OtherBehavior?
        invariant FirstListenerBehavior(ve.behaviors[i..]) == FirstListenerBehavior(ve.behaviors)
      {
        if ve.behaviors[i].ListenerBehavior? {
          return ve.behaviors[i].behavior;
        }
        assert ve.behaviors[i..][1..] == ve.behaviors[i + 1..];
        i := i + 1;
      }
      r := new HardwareKeyListenerBehavior();
      ghost var before := ve.behaviors;
      ve.behaviors := ve.behaviors + [ListenerBehavior(r)];
      FirstListenerBehaviorAfterAppend(before, r);
    }

    /** `OnDetachingFrom`: the focused element is reset if it is this one, and the
        listeners are cleared (the platform effect detach is not modelled). */
    method OnDetachingFrom(bindable: VisualElement, page: HardwareKeyPage)
      modifies page, hardwareKeyListeners
      ensures hardwareKeyListeners.items == []
      ensures page.focusedElement == if old(page.focusedElement) == bindable then null else old(page.focusedElement)
    {
      if page.focusedElement == bindable {
        page.focusedElement := null;
      }
      hardwareKeyListeners.Clear();
    }
  }

  /** Appending a listener behaviour to a list that has none makes it the first. */
  lemma {:induction false} FirstListenerBehaviorAfterAppend(behaviors: seq<AttachedBehavior>, b: HardwareKeyListenerBehavior)
    requires FirstListenerBehavior(behaviors).Null?
    ensures FirstListenerBehavior(behaviors + [ListenerBehavior(b)]) == Some(b)
  {
    if behaviors != [] {
      assert (behaviors + [ListenerBehavior(b)])[1..] == behaviors[1..] + [ListenerBehavior(b)];
      FirstListenerBehaviorAfterAppend(behaviors[1..], b);
    }
  }

  /** `GetFor` is idempotent: a second call returns the behaviour of the first
      and the behaviours list grows by at most one over both. */
  method GetForTwice(ve: VisualElement) returns (first: HardwareKeyListenerBehavior?, second: HardwareKeyListenerBehavior?)
    modifies ve
    ensures first != null && first == second
    ensures old(ve.behaviors) <= ve.behaviors && |ve.behaviors| <= |old(ve.behaviors)| + 1
  {
    first := HardwareKeyListenerBehavior.GetFor(ve);
    second := HardwareKeyListenerBehavior.GetFor(ve);
  }
}
