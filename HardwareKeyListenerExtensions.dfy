/** The extension methods through which views, pages and popups register,
    remove and focus hardware-key listeners. Every overload for `View`,
    `HardwareKeyPage` and `PopupBase` casts to `VisualElement` and forwards, so
    the methods here take a `VisualElement`. Dafny has no overloading: each
    overload of `AddHardwareKeyListener` gets a name of its own. */
module HardwareKeyListenerExtensions {
  import opened Wrappers
  import opened HardwareKeyListening

  /** `GetHardwareKeyListeners`: the collection of the element's listener
      behaviour, attaching a new behaviour (with an empty collection) first when
      the element has none. The listeners themselves do not change. */
  method GetHardwareKeyListeners(ve: VisualElement) returns (c: ListenerCollection)
    modifies ve
    ensures ListenerFrame(ve) == {c}
    ensures ListenersOf(ve) == old(ListenersOf(ve))
    ensures old(ListenerFrame(ve)) == {c} || (old(ListenerFrame(ve)) == {} && fresh(c))
    ensures old(ve.behaviors) <= ve.behaviors && |ve.behaviors| <= |old(ve.behaviors)| + 1
  {
    var b := HardwareKeyListenerBehavior.GetFor(ve);
    c := b.hardwareKeyListeners;
  }

  /** `ClearHardwareKeyListeners`: the element is left with no listeners. */
  method ClearHardwareKeyListeners(ve: VisualElement)
    modifies ve, ListenerFrame(ve)
    ensures ListenersOf(ve) == []
  {
    var c := GetHardwareKeyListeners(ve);
    c.Clear();
  }

  /** `AddHardwareKeyListener` with every parameter: a new listener for the key
      is appended after the element's existing listeners and returned. */
  method AddHardwareKeyListener(ve: VisualElement, keyInput: Option<string>, modifiers: ModifierKeys,
                                discoverableTitle: Option<string>, onPressed: Option<KeyHandler>)
    returns (listener: HardwareKeyListener)
    modifies ve, ListenerFrame(ve)
    ensures fresh(listener)
    ensures listener.hardwareKey == HardwareKey(keyInput, modifiers, discoverableTitle)
    ensures listener.onPressed == onPressed
    ensures ListenersOf(ve) == old(ListenersOf(ve)) + [listener]
    ensures fresh(ListenerFrame(ve) - old(ListenerFrame(ve)))
  {
    listener := new HardwareKeyListener(HardwareKey(keyInput, modifiers, discoverableTitle), onPressed);
    var c := GetHardwareKeyListeners(ve);
    c.Add(listener);
  }

  /** The overload without a discoverable title. */
  method AddUntitledHardwareKeyListener(ve: VisualElement, keyInput: Option<string>, modifiers: ModifierKeys,
                                        onPressed: Option<KeyHandler>)
    returns (listener: HardwareKeyListener)
    modifies ve, ListenerFrame(ve)
    ensures fresh(listener)
    ensures listener.hardwareKey == HardwareKey(keyInput, modifiers, Null) && listener.onPressed == onPressed
    ensures ListenersOf(ve) == old(ListenersOf(ve)) + [listener]
    ensures fresh(ListenerFrame(ve) - old(ListenerFrame(ve)))
  {
    listener := AddHardwareKeyListener(ve, keyInput, modifiers, Null, onPressed);
  }

  /** The overload taking only the key input and the handler: no modifiers, no title. */
  method AddUnmodifiedHardwareKeyListener(ve: VisualElement, keyInput: Option<string>, onPressed: Option<KeyHandler>)
    returns (listener: HardwareKeyListener)
    modifies ve, ListenerFrame(ve)
    ensures fresh(listener)
    ensures listener.hardwareKey == HardwareKey(keyInput, NoModifiers, Null) && listener.onPressed == onPressed
    ensures ListenersOf(ve) == old(ListenersOf(ve)) + [listener]
    ensures fresh(ListenerFrame(ve) - old(ListenerFrame(ve)))
  {
    listener := AddHardwareKeyListener(ve, keyInput, NoModifiers, Null, onPressed);
  }

  /** The overload taking only the key input: no modifiers, no title, no handler. */
  method AddPlainHardwareKeyListener(ve: VisualElement, keyInput: Option<string>) returns (listener: HardwareKeyListener)
    modifies ve, ListenerFrame(ve)
    ensures fresh(listener)
    ensures listener.hardwareKey == HardwareKey(keyInput, NoModifiers, Null) && listener.onPressed == Null
    ensures ListenersOf(ve) == old(ListenersOf(ve)) + [listener]
    ensures fresh(ListenerFrame(ve) - old(ListenerFrame(ve)))
  {
    listener := AddHardwareKeyListener(ve, keyInput, NoModifiers, Null, Null);
  }

  /** The overload taking an existing listener: it is appended (even if already
      present) and returned. */
  method AddExistingHardwareKeyListener(ve: VisualElement, listener: HardwareKeyListener)
    returns (r: HardwareKeyListener)
    modifies ve, ListenerFrame(ve)
    ensures r == listener
    ensures ListenersOf(ve) == old(ListenersOf(ve)) + [listener]
  {
    var c := GetHardwareKeyListeners(ve);
    c.Add(listener);
    r := listener;
  }

  /** `RemoveHardwareKeyListener(keyInput, modifiers)`: the first listener whose
      key input and modifiers both match is removed; with none, nothing changes. */
  method RemoveHardwareKeyListenerByKey(ve: VisualElement, keyInput: Option<string>, modifiers: ModifierKeys)
    modifies ve, ListenerFrame(ve)
    ensures ListenersOf(ve) == RemoveFirstKeyMatch(old(ListenersOf(ve)), keyInput, modifiers)
  {
    var c := GetHardwareKeyListeners(ve);
    ghost var before := c.items;
    var i := 0;
    while i < |c.items|
      invariant 0 <= i <= |c.items|
      invariant c.items == before && ListenerFrame(ve) == {c}
      invariant forall j :: 0 <= j < i ==> !MatchesKey(before[j], keyInput, modifiers)
    {
      var key := c.items[i].hardwareKey;
      if key.keyInput == keyInput && key.modifierKeys == modifiers {
        RemoveFirstKeyMatchAt(before, keyInput, modifiers, i);
        c.RemoveAt(i);
        return;
      }
      i := i + 1;
    }
    RemoveFirstKeyMatchAbsent(before, keyInput, modifiers);
  }

  /** `RemoveHardwareKeyListener(listener)`: the listener's first occurrence is
      removed if it is registered. */
  method RemoveHardwareKeyListener(ve: VisualElement, listener: HardwareKeyListener)
    modifies ve, ListenerFrame(ve)
    ensures ListenersOf(ve) == RemoveFirst(old(ListenersOf(ve)), listener)
  {
    var c := GetHardwareKeyListeners(ve);
    var present := c.Contains(listener);
    if present {
      c.Remove(listener);
    } else {
      RemoveFirstAbsent(c.items, listener);
    }
  }

  /** `HardwareKeyFocus`: the element becomes the page-wide focused element. */
  method HardwareKeyFocus(ve: VisualElement?, page: HardwareKeyPage)
    modifies page
    ensures page.focusedElement == ve
  {
    page.focusedElement := ve;
  }

  /** `HardwareKeyUnfocus`: focus is dropped only if this element holds it. */
  method HardwareKeyUnfocus(ve: VisualElement?, page: HardwareKeyPage)
    modifies page
    ensures page.focusedElement == if old(page.focusedElement) == ve then null else old(page.focusedElement)
  {
    if page.focusedElement == ve {
      page.focusedElement := null;
    }
  }

  /** Removing a listener that is the last and only occurrence in the list
      gives back the list it was appended to. */
  lemma RemoveAppended(items: seq<HardwareKeyListener>, listener: HardwareKeyListener)
    requires listener !in items
    ensures RemoveFirst(items + [listener], listener) == items
  {
    RemoveFirstAt(items + [listener], listener, |items|);
    assert (items + [listener])[..|items|] == items;
  }

  /** Adding a listener and then removing it leaves the element's listeners as
      they were. */
  method AddThenRemoveRestores(ve: VisualElement, keyInput: Option<string>, onPressed: Option<KeyHandler>)
    modifies ve, ListenerFrame(ve)
    ensures ListenersOf(ve) == old(ListenersOf(ve))
  {
    ghost var before := ListenersOf(ve);
    var listener := AddUnmodifiedHardwareKeyListener(ve, keyInput, onPressed);
    assert listener !in before;
    RemoveHardwareKeyListener(ve, listener);
    RemoveAppended(before, listener);
  }
}
